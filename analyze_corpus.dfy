/** The corpus-analysis wrapper: it asks the corpus library for raw result
    lists and post-processes them into tables. The library's results are
    inputs here (sequences of records in the library's order); what is
    modelled is what the wrapper itself does to them: the guarded ratios,
    the `min_freq` filter with renumbered ranks, the `top_n` / `max_results`
    caps, the n-gram punctuation filter, the joining of token lists with
    single spaces, and the defaults for absent measure fields. */
module AnalyzeCorpus {
  import opened Wrappers
  import opened Sequences
  import Text

  // ---------------------------------------------------------------------
  // Basic metrics and the type-token ratio

  /** The attributes of a loaded corpus that the metrics read. */
  datatype CorpusInfo = CorpusInfo(
    name: string, description: string,
    numDocuments: int, totalTokens: int, totalTypes: int)

  datatype BasicMetrics = BasicMetrics(
    name: string, description: string,
    numDocuments: int, totalTokens: int, totalTypes: int,
    avgTokensPerDoc: real, typeTokenRatio: real)

  /** `get_basic_metrics`: the counts copied through, the average document
      length and the type-token ratio as quotients guarded against a zero
      (or negative) denominator. */
  function GetBasicMetrics(c: CorpusInfo): (m: BasicMetrics)
    ensures m.name == c.name && m.description == c.description
    ensures m.numDocuments == c.numDocuments && m.totalTokens == c.totalTokens
    ensures m.totalTypes == c.totalTypes
    ensures c.numDocuments > 0 ==> m.avgTokensPerDoc * c.numDocuments as real == c.totalTokens as real
    ensures c.numDocuments <= 0 ==> m.avgTokensPerDoc == 0.0
    ensures c.totalTokens > 0 ==> m.typeTokenRatio * c.totalTokens as real == c.totalTypes as real
    ensures c.totalTokens <= 0 ==> m.typeTokenRatio == 0.0
  {
    BasicMetrics(
      c.name, c.description, c.numDocuments, c.totalTokens, c.totalTypes,
      if c.numDocuments > 0 then c.totalTokens as real / c.numDocuments as real else 0.0,
      if c.totalTokens > 0 then c.totalTypes as real / c.totalTokens as real else 0.0)
  }

  /** `calculate_ttr`: `first_n_tokens` only triggers a warning, so the ratio
      is the whole corpus's, the same one `get_basic_metrics` reports. */
  function CalculateTtr(c: CorpusInfo, firstNTokens: Option<int>): (ttr: real)
    ensures ttr == GetBasicMetrics(c).typeTokenRatio
    ensures c.totalTokens > 0 ==> ttr * c.totalTokens as real == c.totalTypes as real
    ensures c.totalTokens <= 0 ==> ttr == 0.0
  {
    if c.totalTokens > 0 then c.totalTypes as real / c.totalTokens as real else 0.0
  }

  /** The standardisation argument has no effect on the result. */
  lemma TtrIgnoresFirstN(c: CorpusInfo, n1: Option<int>, n2: Option<int>)
    ensures CalculateTtr(c, n1) == CalculateTtr(c, n2)
  {
  }

  /** The ratio lies in [0, 1] whenever the corpus has no more types than tokens. */
  lemma TtrInUnitInterval(c: CorpusInfo, firstNTokens: Option<int>)
    requires 0 <= c.totalTypes <= c.totalTokens
    ensures 0.0 <= CalculateTtr(c, firstNTokens) <= 1.0
  {
    var ttr := CalculateTtr(c, firstNTokens);
    if c.totalTokens > 0 {
      var n := c.totalTokens as real;
      assert ttr * n == c.totalTypes as real;
    }
  }

  // ---------------------------------------------------------------------
  // Frequency table

  /** One row of the library's frequency result. */
  datatype FreqResult = FreqResult(token: string, frequency: int, normalizedFrequency: real)

  /** One row of the wrapper's frequency table. */
  datatype FreqRow = FreqRow(rank: int, token: string, frequency: int, normalizedFrequency: real)

  /** The library rows that reach `min_freq`, in the library's order. */
  function Frequent(results: seq<FreqResult>, minFreq: int): seq<FreqResult> {
    Filter(results, (r: FreqResult) => r.frequency >= minFreq)
  }

  /** The kept rows numbered 1, 2, ... in order. */
  function Ranked(kept: seq<FreqResult>): (rows: seq<FreqRow>)
    ensures |rows| == |kept|
  {
    seq(|kept|, i requires 0 <= i < |kept| =>
      FreqRow(i + 1, kept[i].token, kept[i].frequency, kept[i].normalizedFrequency))
  }

  /** `get_frequency_table`: the loop keeps the rows with `frequency >= min_freq`,
      giving each kept row the next rank, and the table is then capped by
      `top_n`. */
  method GetFrequencyTable(results: seq<FreqResult>, minFreq: int, topN: Option<int>)
    returns (rows: seq<FreqRow>)
    ensures rows == Cap(Ranked(Frequent(results, minFreq)), topN)
  {
    var data: seq<FreqRow> := [];
    var rank := 1;
    var i := 0;
    while i < |results|
      invariant 0 <= i <= |results|
      invariant data == Ranked(Frequent(results[..i], minFreq))
      invariant rank == |data| + 1
    {
      var item := results[i];
      FilterSnoc(results[..i], item, (r: FreqResult) => r.frequency >= minFreq);
      assert results[..i + 1] == results[..i] + [item];
      if item.frequency >= minFreq {
        data := data + [FreqRow(rank, item.token, item.frequency, item.normalizedFrequency)];
        rank := rank + 1;
      }
      i := i + 1;
    }
    assert results[..|results|] == results;
    rows := Cap(data, topN);
  }

  /** What the table holds: row `i` carries rank `i + 1` and the `i`-th library
      row that reaches `min_freq`; without a cap every such row is present,
      with a positive cap the first `min(top_n, k)` of them. */
  lemma FrequencyTableRows(results: seq<FreqResult>, minFreq: int, topN: Option<int>)
    ensures var kept := Frequent(results, minFreq);
      var rows := Cap(Ranked(kept), topN);
      && |rows| <= |kept|
      && (forall i :: 0 <= i < |rows| ==>
            && rows[i].rank == i + 1
            && rows[i].token == kept[i].token
            && rows[i].frequency == kept[i].frequency
            && rows[i].frequency >= minFreq
            && rows[i].normalizedFrequency == kept[i].normalizedFrequency)
      && (!Truthy(topN) ==> |rows| == |kept|)
      && (Truthy(topN) && topN.value > 0 ==> |rows| == if topN.value <= |kept| then topN.value else |kept|)
  {
    var kept := Frequent(results, minFreq);
    FilterAllPass(results, (r: FreqResult) => r.frequency >= minFreq);
    var rows := Cap(Ranked(kept), topN);
    assert forall i :: 0 <= i < |rows| ==> rows[i] == Ranked(kept)[i];
  }

  /** A library row is in the table's source exactly when it reaches
      `min_freq`; the rows below it take no rank. */
  lemma FrequentMembers(results: seq<FreqResult>, minFreq: int, r: FreqResult)
    ensures r in Frequent(results, minFreq) <==> r in results && r.frequency >= minFreq
  {
    FilterMembers(results, (x: FreqResult) => x.frequency >= minFreq, r);
  }

  // ---------------------------------------------------------------------
  // Concordance

  /** One hit of the library's concordance: left and right context tokens,
      and the document id when the library supplies one. */
  datatype ConcHit = ConcHit(left: seq<string>, right: seq<string>, docId: Option<int>)

  /** One concordance line; `document == None` stands for the empty string the
      wrapper writes when the hit has no `doc_id`. */
  datatype ConcLine = ConcLine(leftContext: string, node: string, rightContext: string, document: Option<int>)

  function LineOf(query: string, hit: ConcHit): ConcLine {
    ConcLine(Text.JoinWords(hit.left), query, Text.JoinWords(hit.right), hit.docId)
  }

  /** `get_concordance`: hits are taken in the library's order until
      `max_results` (when truthy) is reached. A negative `max_results` is
      truthy and stops the loop before the first hit. */
  method GetConcordance(hits: seq<ConcHit>, query: string, maxResults: Option<int>)
    returns (lines: seq<ConcLine>)
    ensures !Truthy(maxResults) ==> |lines| == |hits|
    ensures Truthy(maxResults) && maxResults.value > 0 ==>
      |lines| == if maxResults.value <= |hits| then maxResults.value else |hits|
    ensures Truthy(maxResults) && maxResults.value < 0 ==> lines == []
    ensures |lines| <= |hits|
    ensures forall i :: 0 <= i < |lines| ==> lines[i] == LineOf(query, hits[i])
    ensures forall i :: 0 <= i < |lines| ==> lines[i].node == query
    ensures lines == Map(hits[..|lines|], (h: ConcHit) => LineOf(query, h))
    ensures !Truthy(maxResults) ==> lines == Map(hits, (h: ConcHit) => LineOf(query, h))
  {
    lines := [];
    var i := 0;
    while i < |hits|
      invariant 0 <= i <= |hits|
      invariant |lines| == i
      invariant Truthy(maxResults) ==> i <= maxResults.value || i == 0
      invariant forall k :: 0 <= k < i ==> lines[k] == LineOf(query, hits[k])
    {
      if Truthy(maxResults) && i >= maxResults.value {
        break;
      }
      var item := hits[i];
      lines := lines + [ConcLine(Text.JoinWords(item.left), query, Text.JoinWords(item.right), item.docId)];
      i := i + 1;
    }
    assert hits[..|lines|] == hits[..i];
    assert !Truthy(maxResults) ==> hits[..i] == hits;
  }

  /** Round trip of the context join: a non-empty list of space-free left
      tokens is recovered by splitting the line's left context on spaces. */
  lemma ContextSplitsBack(query: string, hit: ConcHit)
    requires |hit.left| > 0 && forall i :: 0 <= i < |hit.left| ==> ' ' !in hit.left[i]
    ensures Text.SplitSpaces(LineOf(query, hit).leftContext) == hit.left
  {
    Text.SplitJoin(hit.left);
  }

  // ---------------------------------------------------------------------
  // Collocations

  /** One library collocation result; the measures may be absent. */
  datatype CollocResult = CollocResult(
    collocate: string, collocateFrequency: int, frequency: int,
    mi: Option<real>, llr: Option<real>, t: Option<real>)

  datatype CollocRow = CollocRow(
    collocate: string, collocateFrequency: int, totalFrequency: int,
    mutualInformation: real, logLikelihood: real, tScore: real)

  /** `item.get('MI', 0)` and friends: absent measures become 0. */
  function CollocRowOf(r: CollocResult): CollocRow {
    CollocRow(r.collocate, r.collocateFrequency, r.frequency,
              r.mi.GetOr(0.0), r.llr.GetOr(0.0), r.t.GetOr(0.0))
  }

  /** `get_collocations`: one row per library result in order, then the `top_n` cap. */
  method GetCollocations(results: seq<CollocResult>, topN: Option<int>) returns (rows: seq<CollocRow>)
    ensures rows == Cap(Map(results, CollocRowOf), topN)
  {
    var data: seq<CollocRow> := [];
    var i := 0;
    while i < |results|
      invariant 0 <= i <= |results|
      invariant data == Map(results[..i], CollocRowOf)
    {
      var item := results[i];
      MapSnoc(results[..i], item, CollocRowOf);
      assert results[..i + 1] == results[..i] + [item];
      data := data + [CollocRow(item.collocate, item.collocateFrequency, item.frequency,
                                item.mi.GetOr(0.0), item.llr.GetOr(0.0), item.t.GetOr(0.0))];
      i := i + 1;
    }
    assert results[..|results|] == results;
    rows := Cap(data, topN);
  }

  /** Row `i` of the collocation table is library result `i`, with a missing
      measure reported as 0 and a present one copied. */
  lemma CollocationRows(results: seq<CollocResult>, topN: Option<int>, i: int)
    requires 0 <= i < |Cap(Map(results, CollocRowOf), topN)|
    ensures var row := Cap(Map(results, CollocRowOf), topN)[i];
      && row.collocate == results[i].collocate
      && row.collocateFrequency == results[i].collocateFrequency
      && row.totalFrequency == results[i].frequency
      && (results[i].mi.None? ==> row.mutualInformation == 0.0)
      && (results[i].mi.Some? ==> row.mutualInformation == results[i].mi.value)
      && (results[i].llr.None? ==> row.logLikelihood == 0.0)
      && (results[i].llr.Some? ==> row.logLikelihood == results[i].llr.value)
      && (results[i].t.None? ==> row.tScore == 0.0)
      && (results[i].t.Some? ==> row.tScore == results[i].t.value)
  {
    assert Cap(Map(results, CollocRowOf), topN)[i] == Map(results, CollocRowOf)[i];
  }

  // ---------------------------------------------------------------------
  // Keywords

  /** One library keyword result; RR, LLR and effect size may be absent. */
  datatype KeywordResult = KeywordResult(
    token: string, frequency: int, frequencyReference: int,
    normalizedFrequency: real, normalizedFrequencyReference: real,
    rr: Option<real>, llr: Option<real>, effectSize: Option<real>)

  datatype KeywordRow = KeywordRow(
    keyword: string, freqTarget: int, freqReference: int,
    normalizedTarget: real, normalizedReference: real,
    relativeRisk: real, logLikelihood: real, effectSize: real)

  function KeywordRowOf(r: KeywordResult): KeywordRow {
    KeywordRow(r.token, r.frequency, r.frequencyReference,
               r.normalizedFrequency, r.normalizedFrequencyReference,
               r.rr.GetOr(0.0), r.llr.GetOr(0.0), r.effectSize.GetOr(0.0))
  }

  /** `get_keywords`: one row per library result in order, then the `top_n` cap. */
  method GetKeywords(results: seq<KeywordResult>, topN: Option<int>) returns (rows: seq<KeywordRow>)
    ensures rows == Cap(Map(results, KeywordRowOf), topN)
  {
    var data: seq<KeywordRow> := [];
    var i := 0;
    while i < |results|
      invariant 0 <= i <= |results|
      invariant data == Map(results[..i], KeywordRowOf)
    {
      var item := results[i];
      MapSnoc(results[..i], item, KeywordRowOf);
      assert results[..i + 1] == results[..i] + [item];
      data := data + [KeywordRow(item.token, item.frequency, item.frequencyReference,
                                 item.normalizedFrequency, item.normalizedFrequencyReference,
                                 item.rr.GetOr(0.0), item.llr.GetOr(0.0), item.effectSize.GetOr(0.0))];
      i := i + 1;
    }
    assert results[..|results|] == results;
    rows := Cap(data, topN);
  }

  /** Row `i` of the keyword table is library result `i`, absent measures as 0. */
  lemma KeywordRows(results: seq<KeywordResult>, topN: Option<int>, i: int)
    requires 0 <= i < |Cap(Map(results, KeywordRowOf), topN)|
    ensures var row := Cap(Map(results, KeywordRowOf), topN)[i];
      && row.keyword == results[i].token
      && row.freqTarget == results[i].frequency
      && row.freqReference == results[i].frequencyReference
      && row.normalizedTarget == results[i].normalizedFrequency
      && row.normalizedReference == results[i].normalizedFrequencyReference
      && (results[i].rr.None? ==> row.relativeRisk == 0.0)
      && (results[i].rr.Some? ==> row.relativeRisk == results[i].rr.value)
      && (results[i].llr.None? ==> row.logLikelihood == 0.0)
      && (results[i].llr.Some? ==> row.logLikelihood == results[i].llr.value)
      && (results[i].effectSize.None? ==> row.effectSize == 0.0)
      && (results[i].effectSize.Some? ==> row.effectSize == results[i].effectSize.value)
  {
    assert Cap(Map(results, KeywordRowOf), topN)[i] == Map(results, KeywordRowOf)[i];
  }

  // ---------------------------------------------------------------------
  // N-grams

  /** One library cluster: its tokens, frequency and an optional normalised frequency. */
  datatype Cluster = Cluster(tokens: seq<string>, frequency: int, normalizedFrequency: Option<real>)

  datatype NgramRow = NgramRow(ngram: string, frequency: int, normalizedFrequency: real)

  /** The loop's `continue` test: with `exclude_punctuation`, a cluster is
      dropped as soon as one of its tokens fails `isalnum`. */
  predicate Admitted(c: Cluster, excludePunctuation: bool) {
    !(excludePunctuation && exists i :: 0 <= i < |c.tokens| && !Text.IsAlnum(c.tokens[i]))
  }

  function NgramRowOf(c: Cluster): NgramRow {
    NgramRow(Text.JoinWords(c.tokens), c.frequency, c.normalizedFrequency.GetOr(0.0))
  }

  function AdmittedClusters(clusters: seq<Cluster>, excludePunctuation: bool): seq<Cluster> {
    Filter(clusters, (c: Cluster) => Admitted(c, excludePunctuation))
  }

  /** `get_ngrams`: clusters are filtered first and the `top_n` cap is applied
      to what survives. */
  method GetNgrams(clusters: seq<Cluster>, excludePunctuation: bool, topN: Option<int>)
    returns (rows: seq<NgramRow>)
    ensures rows == Cap(Map(AdmittedClusters(clusters, excludePunctuation), NgramRowOf), topN)
  {
    var data: seq<NgramRow> := [];
    var i := 0;
    while i < |clusters|
      invariant 0 <= i <= |clusters|
      invariant data == Map(AdmittedClusters(clusters[..i], excludePunctuation), NgramRowOf)
    {
      var item := clusters[i];
      FilterSnoc(clusters[..i], item, (c: Cluster) => Admitted(c, excludePunctuation));
      assert clusters[..i + 1] == clusters[..i] + [item];
      var ngram := Text.JoinWords(item.tokens);
      var k := 0;
      var punctuation := false;
      while k < |item.tokens|
        invariant 0 <= k <= |item.tokens|
        invariant punctuation <==> exists j :: 0 <= j < k && !Text.IsAlnum(item.tokens[j])
      {
        if !Text.IsAlnum(item.tokens[k]) {
          punctuation := true;
        }
        k := k + 1;
      }
      if excludePunctuation && punctuation {
        i := i + 1;
        continue;
      }
      MapSnoc(AdmittedClusters(clusters[..i], excludePunctuation), item, NgramRowOf);
      data := data + [NgramRow(ngram, item.frequency, item.normalizedFrequency.GetOr(0.0))];
      i := i + 1;
    }
    assert clusters[..|clusters|] == clusters;
    rows := Cap(data, topN);
  }

  /** With `exclude_punctuation`, every returned n-gram comes from a library
      cluster whose tokens all pass `isalnum`, and its text splits on single
      spaces back into exactly those tokens. */
  lemma NgramsAreAlphanumeric(clusters: seq<Cluster>, topN: Option<int>, i: int)
    requires 0 <= i < |Cap(Map(AdmittedClusters(clusters, true), NgramRowOf), topN)|
    ensures var row := Cap(Map(AdmittedClusters(clusters, true), NgramRowOf), topN)[i];
      exists c :: c in clusters && row == NgramRowOf(c)
        && (forall j :: 0 <= j < |c.tokens| ==> Text.IsAlnum(c.tokens[j]))
        && (|c.tokens| > 0 ==> Text.SplitSpaces(row.ngram) == c.tokens)
  {
    var admitted := AdmittedClusters(clusters, true);
    FilterAllPass(clusters, (c: Cluster) => Admitted(c, true));
    var c := admitted[i];
    FilterMembers(clusters, (x: Cluster) => Admitted(x, true), c);
    forall j | 0 <= j < |c.tokens| ensures ' ' !in c.tokens[j] {
      Text.AlnumHasNoSpace(c.tokens[j]);
    }
    if |c.tokens| > 0 {
      Text.SplitJoin(c.tokens);
    }
    assert Cap(Map(admitted, NgramRowOf), topN)[i] == NgramRowOf(c);
  }

  /** Filtering precedes truncation: a positive `top_n` keeps
      `min(top_n, k)` rows, `k` the number of admitted clusters. */
  lemma NgramsFilterBeforeCap(clusters: seq<Cluster>, excludePunctuation: bool, n: int)
    requires n > 0
    ensures var admitted := AdmittedClusters(clusters, excludePunctuation);
      |Cap(Map(admitted, NgramRowOf), Some(n))| == if n <= |admitted| then n else |admitted|
  {
  }
}
