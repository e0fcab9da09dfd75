/**
 * The plagiarism verdict of `similarity.py`: the empty-input and timeout
 * fallbacks, the verbatim-containment short-circuit, the share of matched
 * sentences with its snap to 100, the reverse-order highlight insertion,
 * word chunking and the last-resort sentence split.
 *
 * The sentence splitter and the embedding comparison are oracles: `split`
 * is what `split_into_sentences` returns for a text, and `score(i, j)` is
 * the best similarity between text sentence `i` and any sentence of
 * source `j`.
 */
module Similarity {
  import opened Wrappers
  import opened Strings
  import opened Lists

  const ChunkSize := 20
  const ChunkOverlap := 5
  /** The distance between the starts of consecutive chunks: `ChunkSize - ChunkOverlap`. */
  const ChunkStep := 15
  const SimilarityThreshold: real := 0.65
  const WikipediaThreshold: real := 0.60
  const MaxSentences := 500

  /** One entry of `sources`: its `url` and `content` keys. */
  datatype Source = Source(url: string, content: string)

  /** One entry of `matches`. */
  datatype Match = Match(snippet: string, sourceUrl: string, score: real)

  /** The dictionary the check returns. */
  datatype Verdict = Verdict(percentage: real, matches: seq<Match>, highlighted: string)

  const OpenMarker := "<span class='highlight'>"
  const CloseMarker := "</span>"
  const TimeoutBanner :=
    "<span class='highlight-warning'>Analysis timed out. The text may contain plagiarized content.</span><br><br>"

  // ----- detect_plagiarism -----

  /** The verdict for no sources or a blank text. */
  function EmptyVerdict(text: string): Verdict {
    Verdict(0.0, [], text)
  }

  /** The partial verdict returned when the check runs out of time. */
  function TimeoutVerdict(text: string): Verdict {
    Verdict(50.0, [Match("Analysis timed out", "", 0.8)], TimeoutBanner + text)
  }

  /**
   * `detect_plagiarism(text, sources)`; `timedOut` says whether the check
   * exceeded its 60 second limit.
   */
  method DetectPlagiarism(text: string, sources: seq<Source>, split: string -> seq<string>,
                          score: (nat, nat) -> real, timedOut: bool)
    returns (v: Verdict)
    ensures sources == [] || AllSpace(text) ==> v == EmptyVerdict(text)
    ensures sources != [] && !AllSpace(text) && timedOut ==>
      && v.percentage == 50.0 && |v.matches| == 1
      && v.matches[0] == Match("Analysis timed out", "", 0.8)
      && v.highlighted == TimeoutBanner + text
    ensures sources != [] && !AllSpace(text) && !timedOut ==> v == CheckVerdict(text, sources, split, score)
    ensures 0.0 <= v.percentage <= 100.0
  {
    StripEmpty(text);
    if sources == [] || Strip(text) == [] {
      return EmptyVerdict(text);
    }
    if timedOut {
      return TimeoutVerdict(text);
    }
    v := PerformCheck(text, sources, split, score);
    CheckPercentageBounds(text, sources, split, score);
  }

  // ----- perform_plagiarism_check: the verbatim short-circuit -----

  /** The stripped source is long and contains the text, or is contained in it. */
  predicate CopiedFrom(text: string, s: Source) {
    var content := Strip(s.content);
    |content| > 100 && (Contains(content, text) || Contains(text, content))
  }

  function CopiedInto(text: string): Source -> bool {
    s => CopiedFrom(text, s)
  }

  /** The index of the first source the text was copied from or into. */
  function FirstCopied(text: string, sources: seq<Source>): Option<nat> {
    FirstWhere(sources, CopiedInto(text))
  }

  /** The verdict for a verbatim copy of the source at `url`. */
  function VerbatimVerdict(text: string, url: string): Verdict {
    Verdict(100.0, [Match(Take(text, 200) + "...", url, 1.0)], OpenMarker + text + CloseMarker)
  }

  // ----- perform_plagiarism_check: the (sentence, source) table -----

  /** The sentences below `n` that source `j` hits. */
  function RowSet(hit: (nat, nat) -> bool, j: nat, n: nat): set<nat>
    decreases n
  {
    if n == 0 then {}
    else if hit(n - 1, j) then RowSet(hit, j, n - 1) + {n - 1}
    else RowSet(hit, j, n - 1)
  }

  /** One entry per sentence below `n` that source `j` hits, in sentence order. */
  function Row<T>(hit: (nat, nat) -> bool, entry: (nat, nat) -> T, j: nat, n: nat): seq<T>
    decreases n
  {
    if n == 0 then []
    else if hit(n - 1, j) then Row(hit, entry, j, n - 1) + [entry(n - 1, j)]
    else Row(hit, entry, j, n - 1)
  }

  /** The entries of the first `m` sources, source by source. */
  function Grid<T>(hit: (nat, nat) -> bool, entry: (nat, nat) -> T, n: nat, m: nat): seq<T>
    decreases m
  {
    if m == 0 then [] else Grid(hit, entry, n, m - 1) + Row(hit, entry, m - 1, n)
  }

  /** The sentences below `n` hit by any of the first `m` sources. */
  function GridSet(hit: (nat, nat) -> bool, n: nat, m: nat): set<nat>
    decreases m
  {
    if m == 0 then {} else GridSet(hit, n, m - 1) + RowSet(hit, m - 1, n)
  }

  function RangeSet(n: nat): set<nat>
    decreases n
  {
    if n == 0 then {} else RangeSet(n - 1) + {n - 1}
  }

  lemma {:induction false} RangeSetMeans(n: nat, i: nat)
    ensures i in RangeSet(n) <==> i < n
    decreases n
  {
    if n > 0 {
      RangeSetMeans(n - 1, i);
    }
  }

  lemma {:induction false} RangeSetSize(n: nat)
    ensures |RangeSet(n)| == n
    decreases n
  {
    if n > 0 {
      RangeSetSize(n - 1);
      RangeSetMeans(n - 1, n - 1);
    }
  }

  lemma {:induction false} RowSetMeans(hit: (nat, nat) -> bool, j: nat, n: nat, i: nat)
    ensures i in RowSet(hit, j, n) <==> i < n && hit(i, j)
    decreases n
  {
    if n > 0 {
      RowSetMeans(hit, j, n - 1, i);
    }
  }

  lemma {:induction false} GridSetMeans(hit: (nat, nat) -> bool, n: nat, m: nat, i: nat)
    ensures i in GridSet(hit, n, m) <==> i < n && exists j :: 0 <= j < m && hit(i, j)
    decreases m
  {
    if m > 0 {
      GridSetMeans(hit, n, m - 1, i);
      RowSetMeans(hit, m - 1, n, i);
    }
  }

  lemma {:induction false} RowEntries<T>(hit: (nat, nat) -> bool, entry: (nat, nat) -> T, j: nat, n: nat, x: T)
    ensures x in Row(hit, entry, j, n) <==> exists i :: 0 <= i < n && hit(i, j) && x == entry(i, j)
    decreases n
  {
    if n > 0 {
      RowEntries(hit, entry, j, n - 1, x);
    }
  }

  /** An entry is in the table exactly when it belongs to a hit pair. */
  lemma {:induction false} GridEntries<T>(hit: (nat, nat) -> bool, entry: (nat, nat) -> T, n: nat, m: nat, x: T)
    ensures x in Grid(hit, entry, n, m) <==>
      exists i, j :: 0 <= i < n && 0 <= j < m && hit(i, j) && x == entry(i, j)
    decreases m
  {
    if m > 0 {
      GridEntries(hit, entry, n, m - 1, x);
      RowEntries(hit, entry, m - 1, n, x);
      var g := Grid(hit, entry, n, m - 1);
      var r := Row(hit, entry, m - 1, n);
      assert x in g + r <==> x in g || x in r;
      if exists i, j :: 0 <= i < n && 0 <= j < m && hit(i, j) && x == entry(i, j) {
        var i, j :| 0 <= i < n && 0 <= j < m && hit(i, j) && x == entry(i, j);
        if j == m - 1 {
          assert x in r;
        } else {
          assert x in g;
        }
      }
      if x in r {
        var i :| 0 <= i < n && hit(i, m - 1) && x == entry(i, m - 1);
        assert 0 <= m - 1 < m;
      }
    }
  }

  lemma {:induction false} RowCount<T>(hit: (nat, nat) -> bool, entry: (nat, nat) -> T, j: nat, n: nat)
    ensures |Row(hit, entry, j, n)| == |RowSet(hit, j, n)|
    decreases n
  {
    if n > 0 {
      RowCount(hit, entry, j, n - 1);
      RowSetMeans(hit, j, n - 1, n - 1);
      if hit(n - 1, j) {
        AddFresh(RowSet(hit, j, n - 1), n - 1);
      }
    }
  }

  lemma AddFresh(s: set<nat>, x: nat)
    requires x !in s
    ensures |s + {x}| == |s| + 1
  {
  }

  lemma {:induction false} GridCount<T>(hit: (nat, nat) -> bool, entry: (nat, nat) -> T, n: nat, m: nat)
    ensures |GridSet(hit, n, m)| <= |Grid(hit, entry, n, m)|
    decreases m
  {
    if m > 0 {
      GridCount(hit, entry, n, m - 1);
      RowCount(hit, entry, m - 1, n);
      UnionSize(GridSet(hit, n, m - 1), RowSet(hit, m - 1, n));
    }
  }

  lemma UnionSize(a: set<nat>, b: set<nat>)
    ensures |a + b| <= |a| + |b|
  {
    assert |a + b| == |a| + |b| - |a * b|;
  }

  lemma SubsetSize(a: set<nat>, b: set<nat>)
    requires a <= b
    ensures |a| <= |b|
  {
    assert b == a + (b - a);
    assert a * (b - a) == {};
    assert |a + (b - a)| == |a| + |b - a| - |a * (b - a)|;
  }

  lemma GridSetInRange(hit: (nat, nat) -> bool, n: nat, m: nat)
    ensures GridSet(hit, n, m) <= RangeSet(n)
    ensures |GridSet(hit, n, m)| <= n
  {
    forall i | i in GridSet(hit, n, m) ensures i in RangeSet(n) {
      GridSetMeans(hit, n, m, i);
      RangeSetMeans(n, i);
    }
    RangeSetSize(n);
    SubsetSize(GridSet(hit, n, m), RangeSet(n));
  }

  lemma {:induction false} RowEmpty<T>(hit: (nat, nat) -> bool, entry: (nat, nat) -> T, j: nat, n: nat)
    requires forall i :: 0 <= i < n ==> !hit(i, j)
    ensures Row(hit, entry, j, n) == [] && RowSet(hit, j, n) == {}
    decreases n
  {
    if n > 0 {
      RowEmpty(hit, entry, j, n - 1);
    }
  }

  // ----- perform_plagiarism_check: the sentence comparison -----

  /** Wikipedia sources are held to a lower threshold. */
  function Threshold(url: string): (t: real)
    ensures Contains(url, "wikipedia.org") ==> t == 0.60
    ensures !Contains(url, "wikipedia.org") ==> t == 0.65
  {
    if Contains(url, "wikipedia.org") then WikipediaThreshold else SimilarityThreshold
  }

  /** A source takes part in the comparison: non-blank and with some sentence. */
  predicate Compared(s: Source, split: string -> seq<string>) {
    Strip(s.content) != [] && Take(split(s.content), MaxSentences) != []
  }

  /** The threshold a source is compared against, or `None` when it is skipped. */
  function Cutoff(split: string -> seq<string>): Source -> Option<real> {
    s => if Compared(s, split) then Some(Threshold(s.url)) else None
  }

  /**
   * Text sentence `i` matches source `j`: the source is not skipped and
   * the best score beats its threshold; `cut` gives each source's cutoff.
   */
  function SentenceHit(sources: seq<Source>, cut: Source -> Option<real>, score: (nat, nat) -> real): (nat, nat) -> bool {
    (i: nat, j: nat) => j < |sources| && cut(sources[j]).Some? && score(i, j) > cut(sources[j]).value
  }

  /** The entry of `matches` for text sentence `i` and source `j`. */
  function MatchOf(ts: seq<string>, sources: seq<Source>, score: (nat, nat) -> real): (nat, nat) -> Match {
    (i: nat, j: nat) => Match(if i < |ts| then ts[i] else "", if j < |sources| then sources[j].url else "", score(i, j))
  }

  /** `matches` after the source loop. */
  function AllMatches(ts: seq<string>, sources: seq<Source>, split: string -> seq<string>,
                      score: (nat, nat) -> real): seq<Match>
  {
    Grid(SentenceHit(sources, Cutoff(split), score), MatchOf(ts, sources, score), |ts|, |sources|)
  }

  /** `plagiarized_chunks` after the source loop. */
  function Matched(ts: seq<string>, sources: seq<Source>, split: string -> seq<string>,
                   score: (nat, nat) -> real): set<nat>
  {
    GridSet(SentenceHit(sources, Cutoff(split), score), |ts|, |sources|)
  }

  /** The inner loop: one source, with its threshold, against every text sentence. */
  method ScoreSentences(ts: seq<string>, sources: seq<Source>, j: nat, threshold: real,
                        cut: Source -> Option<real>, score: (nat, nat) -> real)
    returns (hits: seq<Match>, hitSet: set<nat>)
    requires j < |sources| && cut(sources[j]) == Some(threshold)
    ensures hits == Row(SentenceHit(sources, cut, score), MatchOf(ts, sources, score), j, |ts|)
    ensures hitSet == RowSet(SentenceHit(sources, cut, score), j, |ts|)
  {
    ghost var hit := SentenceHit(sources, cut, score);
    ghost var entry := MatchOf(ts, sources, score);
    var url := sources[j].url;
    hits, hitSet := [], {};
    var i := 0;
    while i < |ts|
      invariant 0 <= i <= |ts|
      invariant hits == Row(hit, entry, j, i)
      invariant hitSet == RowSet(hit, j, i)
    {
      var bestScore := score(i, j);
      if bestScore > threshold {
        hits := hits + [Match(ts[i], url, bestScore)];
        hitSet := hitSet + {i};
      }
      i := i + 1;
    }
  }

  /**
   * The outer loop over the sources; `cut(source)` is the skip test and
   * threshold choice at the head of its body (`Cutoff(split)` in the check).
   */
  method ScoreSources(ts: seq<string>, sources: seq<Source>, cut: Source -> Option<real>,
                      score: (nat, nat) -> real)
    returns (matches: seq<Match>, matched: set<nat>)
    ensures matches == Grid(SentenceHit(sources, cut, score), MatchOf(ts, sources, score), |ts|, |sources|)
    ensures matched == GridSet(SentenceHit(sources, cut, score), |ts|, |sources|)
  {
    ghost var hit := SentenceHit(sources, cut, score);
    ghost var entry := MatchOf(ts, sources, score);
    matches, matched := [], {};
    var j := 0;
    while j < |sources|
      invariant 0 <= j <= |sources|
      invariant matches == Grid(hit, entry, |ts|, j)
      invariant matched == GridSet(hit, |ts|, j)
    {
      var cutoff := cut(sources[j]);
      if cutoff.Some? {
        var hits, hitSet := ScoreSentences(ts, sources, j, cutoff.value, cut, score);
        matches := matches + hits;
        matched := matched + hitSet;
      } else {
        RowEmpty(hit, entry, j, |ts|);
      }
      j := j + 1;
    }
  }

  /** Source `j` is compared and beats its threshold on text sentence `i`. */
  predicate Beats(sources: seq<Source>, split: string -> seq<string>, score: (nat, nat) -> real, i: nat, j: nat)
    requires j < |sources|
  {
    Compared(sources[j], split) && score(i, j) > Threshold(sources[j].url)
  }

  lemma HitMeans(sources: seq<Source>, split: string -> seq<string>, score: (nat, nat) -> real, i: nat, j: nat)
    requires j < |sources|
    ensures SentenceHit(sources, Cutoff(split), score)(i, j) == Beats(sources, split, score, i, j)
  {
  }

  /** A sentence is matched exactly when some compared source beats its threshold on it. */
  lemma MatchedMeans(ts: seq<string>, sources: seq<Source>, split: string -> seq<string>,
                     score: (nat, nat) -> real, i: nat)
    ensures i in Matched(ts, sources, split, score) <==>
      i < |ts| && exists j :: 0 <= j < |sources| && Beats(sources, split, score, i, j)
  {
    GridSetMeans(SentenceHit(sources, Cutoff(split), score), |ts|, |sources|, i);
    forall j | 0 <= j < |sources|
      ensures SentenceHit(sources, Cutoff(split), score)(i, j) == Beats(sources, split, score, i, j)
    {
      HitMeans(sources, split, score, i, j);
    }
  }

  /** The entries of `matches` are exactly those of the matching (sentence, source) pairs. */
  lemma MatchesArePairs(ts: seq<string>, sources: seq<Source>, split: string -> seq<string>,
                        score: (nat, nat) -> real, x: Match)
    ensures x in AllMatches(ts, sources, split, score) <==>
      exists i, j :: 0 <= i < |ts| && 0 <= j < |sources| && Beats(sources, split, score, i, j)
                     && x == Match(ts[i], sources[j].url, score(i, j))
  {
    GridEntries(SentenceHit(sources, Cutoff(split), score), MatchOf(ts, sources, score), |ts|, |sources|, x);
    forall i, j | 0 <= i < |ts| && 0 <= j < |sources|
      ensures SentenceHit(sources, Cutoff(split), score)(i, j) == Beats(sources, split, score, i, j)
      ensures MatchOf(ts, sources, score)(i, j) == Match(ts[i], sources[j].url, score(i, j))
    {
      HitMeans(sources, split, score, i, j);
    }
  }

  /**
   * A sentence matched by several sources is counted once in the
   * percentage, but gives one entry of `matches` per source.
   */
  lemma CountedOnce(ts: seq<string>, sources: seq<Source>, split: string -> seq<string>,
                    score: (nat, nat) -> real)
    ensures |Matched(ts, sources, split, score)| <= |AllMatches(ts, sources, split, score)|
    ensures |Matched(ts, sources, split, score)| <= |ts|
  {
    GridCount(SentenceHit(sources, Cutoff(split), score), MatchOf(ts, sources, score), |ts|, |sources|);
    GridSetInRange(SentenceHit(sources, Cutoff(split), score), |ts|, |sources|);
  }

  // ----- perform_plagiarism_check: the percentage -----

  /** The share of matched sentences, as a percentage; 0 without sentences. */
  function Percentage(matched: nat, considered: nat): (p: real)
    ensures matched <= considered ==> 0.0 <= p <= 100.0
    ensures considered > 0 && matched == considered ==> p == 100.0
    ensures matched == 0 ==> p == 0.0
  {
    if considered > 0 then
      var share := matched as real / considered as real;
      assert matched <= considered ==> share <= 1.0;
      share * 100.0
    else 0.0
  }

  /** Near-total copies are reported as total. */
  function Snap(p: real): (r: real)
    ensures 0.0 <= p <= 100.0 ==> 0.0 <= r <= 100.0
    ensures !(95.0 < r < 100.0)
    ensures r <= 95.0 ==> r == p
  {
    if p > 95.0 then 100.0 else p
  }

  // ----- perform_plagiarism_check: highlighting -----

  /** A `(start, end)` pair of `text_matches`. */
  datatype Span = Span(start: int, end: int)

  predicate InBounds(spans: seq<Span>, n: int) {
    forall k :: 0 <= k < |spans| ==> 0 <= spans[k].start <= spans[k].end <= n
  }

  /**
   * The spans of the matched sentences, in increasing sentence order: the
   * first occurrence of each in the text, skipping those not found.
   */
  function FoundSpans(text: string, ts: seq<string>, matched: set<nat>, n: nat): (r: seq<Span>)
    requires n <= |ts|
    ensures InBounds(r, |text|)
    decreases n
  {
    if n == 0 then []
    else
      var r := FoundSpans(text, ts, matched, n - 1);
      var start := Find(text, ts[n - 1]);
      if n - 1 in matched && start >= 0 then r + [Span(start, start + |ts[n - 1]|)] else r
  }

  /** A span is highlighted exactly when it is the first occurrence of a matched sentence. */
  lemma {:induction false} FoundSpansMeans(text: string, ts: seq<string>, matched: set<nat>, n: nat, sp: Span)
    requires n <= |ts|
    ensures sp in FoundSpans(text, ts, matched, n) <==>
      exists i :: 0 <= i < n && i in matched && Find(text, ts[i]) >= 0
                  && sp == Span(Find(text, ts[i]), Find(text, ts[i]) + |ts[i]|)
    decreases n
  {
    if n > 0 {
      FoundSpansMeans(text, ts, matched, n - 1, sp);
    }
  }

  /** The loop over `sorted(plagiarized_chunks)` that collects the spans. */
  method CollectSpans(text: string, ts: seq<string>, matched: set<nat>) returns (spans: seq<Span>)
    ensures spans == FoundSpans(text, ts, matched, |ts|)
  {
    spans := [];
    var i := 0;
    while i < |ts|
      invariant 0 <= i <= |ts|
      invariant spans == FoundSpans(text, ts, matched, i)
    {
      if i in matched {
        var sentence := ts[i];
        var start := Find(text, sentence);
        if start >= 0 {
          spans := spans + [Span(start, start + |sentence|)];
        }
      }
      i := i + 1;
    }
  }

  /**
   * The order of `text_matches.sort(reverse=True)`: by start, then by end.
   * For spans inside a text of length `n` the number below orders them
   * the same way.
   */
  function SpanKey(n: nat): Span -> real {
    (sp: Span) => (sp.start * (n + 1) + sp.end) as real
  }

  /** Insert the closing marker at the end, then the opening marker at the start. */
  function Mark(h: string, sp: Span): (r: string)
    requires 0 <= sp.start <= sp.end <= |h|
    ensures |r| == |h| + |OpenMarker| + |CloseMarker|
  {
    var h1 := h[..sp.end] + CloseMarker + h[sp.end..];
    h1[..sp.start] + OpenMarker + h1[sp.start..]
  }

  /** The highlighting loop over the spans, in the order given. */
  function Highlight(h: string, spans: seq<Span>): string
    requires InBounds(spans, |h|)
    decreases |spans|
  {
    if spans == [] then h
    else Highlight(Mark(h, spans[0]), spans[1..])
  }

  method ApplyHighlights(text: string, spans: seq<Span>) returns (highlighted: string)
    requires InBounds(spans, |text|)
    ensures highlighted == Highlight(text, spans)
  {
    highlighted := text;
    var k := 0;
    while k < |spans|
      invariant 0 <= k <= |spans|
      invariant |highlighted| >= |text|
      invariant InBounds(spans[k..], |highlighted|)
      invariant Highlight(highlighted, spans[k..]) == Highlight(text, spans)
    {
      var sp := spans[k];
      assert spans[k..][1..] == spans[k + 1..];
      highlighted := highlighted[..sp.end] + CloseMarker + highlighted[sp.end..];
      highlighted := highlighted[..sp.start] + OpenMarker + highlighted[sp.start..];
      k := k + 1;
    }
  }

  /** Sorting keeps every span inside the text. */
  lemma SortKeepsBounds(spans: seq<Span>, n: nat, key: Span -> real)
    requires InBounds(spans, n)
    ensures InBounds(SortDesc(spans, key), n)
  {
    var r := SortDesc(spans, key);
    forall k | 0 <= k < |r| ensures 0 <= r[k].start <= r[k].end <= n {
      assert r[k] in multiset(spans);
    }
  }

  /** `text_sentences`: at most 500 sentences of the text. */
  function TextSentences(text: string, split: string -> seq<string>): seq<string> {
    Take(split(text), MaxSentences)
  }

  /** The percentage after the sentence comparison. */
  function ScoredPercentage(text: string, sources: seq<Source>, split: string -> seq<string>,
                            score: (nat, nat) -> real): real
  {
    var ts := TextSentences(text, split);
    Snap(Percentage(|Matched(ts, sources, split, score)|, |ts|))
  }

  /** `text_matches` after `sort(reverse=True)`. */
  function OrderedSpans(text: string, sources: seq<Source>, split: string -> seq<string>,
                        score: (nat, nat) -> real): (r: seq<Span>)
    ensures InBounds(r, |text|)
  {
    var ts := TextSentences(text, split);
    var spans := FoundSpans(text, ts, Matched(ts, sources, split, score), |ts|);
    SortKeepsBounds(spans, |text|, SpanKey(|text|));
    SortDesc(spans, SpanKey(|text|))
  }

  /** The verdict after the sentence comparison. */
  function ScoredVerdict(text: string, sources: seq<Source>, split: string -> seq<string>,
                         score: (nat, nat) -> real): Verdict
  {
    Verdict(ScoredPercentage(text, sources, split, score),
            AllMatches(TextSentences(text, split), sources, split, score),
            Highlight(text, OrderedSpans(text, sources, split, score)))
  }

  /** What `perform_plagiarism_check` returns. */
  function CheckVerdict(text: string, sources: seq<Source>, split: string -> seq<string>,
                        score: (nat, nat) -> real): Verdict
  {
    match FirstCopied(text, sources)
    case Some(j) => VerbatimVerdict(text, sources[j].url)
    case None => ScoredVerdict(text, sources, split, score)
  }

  /** `perform_plagiarism_check(text, sources)`. */
  method PerformCheck(text: string, sources: seq<Source>, split: string -> seq<string>,
                      score: (nat, nat) -> real)
    returns (v: Verdict)
    ensures v == CheckVerdict(text, sources, split, score)
  {
    var copied := FindFirst(sources, CopiedInto(text));
    if copied.Some? {
      return VerbatimVerdict(text, sources[copied.value].url);
    }
    var textSentences := Take(split(text), MaxSentences);
    var matches, matched := ScoreSources(textSentences, sources, Cutoff(split), score);
    var percentage := if |textSentences| > 0 then (|matched| as real / |textSentences| as real) * 100.0 else 0.0;
    if percentage > 95.0 {
      percentage := 100.0;
    }
    var spans := CollectSpans(text, textSentences, matched);
    SortKeepsBounds(spans, |text|, SpanKey(|text|));
    var ordered := SortDesc(spans, SpanKey(|text|));
    var highlighted := ApplyHighlights(text, ordered);
    v := Verdict(percentage, matches, highlighted);
  }

  // ----- What the verdict promises -----

  /** The first copied source decides the verdict: 100%, one match, the whole text highlighted. */
  lemma VerbatimShortCircuit(text: string, sources: seq<Source>, split: string -> seq<string>,
                             score: (nat, nat) -> real, j: nat)
    requires j < |sources| && CopiedFrom(text, sources[j])
    requires forall k :: 0 <= k < j ==> !CopiedFrom(text, sources[k])
    ensures FirstCopied(text, sources) == Some(j)
    ensures var v := CheckVerdict(text, sources, split, score);
      && v.percentage == 100.0
      && v.matches == [Match(Take(text, 200) + "...", sources[j].url, 1.0)]
      && v.highlighted == OpenMarker + text + CloseMarker
  {
    assert CopiedInto(text)(sources[j]);
    assert forall k :: 0 <= k < j ==> !CopiedInto(text)(sources[k]);
    FirstWhereIs(sources, CopiedInto(text), j);
    assert CheckVerdict(text, sources, split, score) == VerbatimVerdict(text, sources[j].url);
  }

  /**
   * Without a verbatim copy the percentage is the share of distinct
   * matched sentences among the considered ones, snapped above 95.
   */
  lemma PercentageIsShare(text: string, sources: seq<Source>, split: string -> seq<string>,
                          score: (nat, nat) -> real)
    ensures var ts := TextSentences(text, split);
      var matched := Matched(ts, sources, split, score);
      && |ts| <= MaxSentences
      && |matched| <= |ts|
      && ScoredPercentage(text, sources, split, score) == Snap(Percentage(|matched|, |ts|))
      && 0.0 <= ScoredPercentage(text, sources, split, score) <= 100.0
  {
    CountedOnce(TextSentences(text, split), sources, split, score);
  }

  /** Every verdict of the check lies between 0 and 100, and never strictly between 95 and 100. */
  lemma CheckPercentageBounds(text: string, sources: seq<Source>, split: string -> seq<string>,
                              score: (nat, nat) -> real)
    ensures var p := CheckVerdict(text, sources, split, score).percentage;
      0.0 <= p <= 100.0 && !(95.0 < p < 100.0)
  {
    PercentageIsShare(text, sources, split, score);
  }

  /** A text without sentences gets 0%, no matches and no highlighting. */
  lemma NoSentences(text: string, sources: seq<Source>, split: string -> seq<string>,
                    score: (nat, nat) -> real)
    requires FirstCopied(text, sources).None? && split(text) == []
    ensures CheckVerdict(text, sources, split, score) == EmptyVerdict(text)
  {
    var ts := TextSentences(text, split);
    assert ts == [];
    NoRows(SentenceHit(sources, Cutoff(split), score), MatchOf(ts, sources, score), |sources|);
  }

  lemma {:induction false} NoRows<T>(hit: (nat, nat) -> bool, entry: (nat, nat) -> T, m: nat)
    ensures Grid(hit, entry, 0, m) == []
    decreases m
  {
    if m > 0 {
      NoRows(hit, entry, m - 1);
    }
  }

  // ----- Highlighting keeps the text -----

  /** A piece of the highlighted text: plain, or wrapped in the markers. */
  datatype Segment = Plain(text: string) | Marked(text: string)

  function Shown(s: Segment): string {
    match s
    case Plain(t) => t
    case Marked(t) => OpenMarker + t + CloseMarker
  }

  /** The text the segments display, markers included. */
  function Render(segs: seq<Segment>): string
    decreases |segs|
  {
    if segs == [] then "" else Render(segs[..|segs| - 1]) + Shown(segs[|segs| - 1])
  }

  /** The text with the markers deleted. */
  function Erase(segs: seq<Segment>): string
    decreases |segs|
  {
    if segs == [] then "" else Erase(segs[..|segs| - 1]) + segs[|segs| - 1].text
  }

  /** Later spans end no later than earlier ones start. */
  predicate Separated(spans: seq<Span>) {
    forall i, j :: 0 <= i < j < |spans| ==> spans[j].end <= spans[i].start
  }

  /** The segments of a text cut at separated spans, given in descending order. */
  function Segments(text: string, spans: seq<Span>): seq<Segment>
    requires InBounds(spans, |text|) && Separated(spans)
    decreases |spans|
  {
    if spans == [] then [Plain(text)]
    else
      var sp := spans[0];
      assert InBounds(spans[1..], sp.start) by {
        forall k | 0 <= k < |spans[1..]| ensures 0 <= spans[1..][k].start <= spans[1..][k].end <= sp.start {
          assert spans[1..][k] == spans[k + 1];
        }
      }
      Segments(text[..sp.start], spans[1..]) + [Marked(text[sp.start..sp.end]), Plain(text[sp.end..])]
  }

  lemma AppendOne(segs: seq<Segment>, x: Segment)
    ensures Render(segs + [x]) == Render(segs) + Shown(x)
    ensures Erase(segs + [x]) == Erase(segs) + x.text
  {
    assert (segs + [x])[..|segs|] == segs;
  }

  lemma AppendTwo(segs: seq<Segment>, x: Segment, y: Segment)
    ensures Render(segs + [x, y]) == Render(segs) + Shown(x) + Shown(y)
    ensures Erase(segs + [x, y]) == Erase(segs) + x.text + y.text
  {
    assert segs + [x, y] == (segs + [x]) + [y];
    AppendOne(segs, x);
    AppendOne(segs + [x], y);
  }

  /** Marking a span puts the marked piece between the markers and keeps the rest. */
  lemma MarkSplit(h: string, sp: Span)
    requires 0 <= sp.start <= sp.end <= |h|
    ensures Mark(h, sp) == h[..sp.start] + (OpenMarker + h[sp.start..sp.end] + CloseMarker + h[sp.end..])
  {
    var h1 := h[..sp.end] + CloseMarker + h[sp.end..];
    assert h1[..sp.start] == h[..sp.start];
    assert h1[sp.start..] == h[sp.start..sp.end] + CloseMarker + h[sp.end..];
  }

  /** Highlighting inside a prefix leaves what follows it alone. */
  lemma {:induction false} HighlightPrefix(p: string, q: string, spans: seq<Span>)
    requires InBounds(spans, |p|)
    ensures InBounds(spans, |p + q|)
    ensures Highlight(p + q, spans) == Highlight(p, spans) + q
    decreases |spans|
  {
    if spans != [] {
      var sp := spans[0];
      MarkSplit(p + q, sp);
      MarkSplit(p, sp);
      assert (p + q)[..sp.start] == p[..sp.start];
      assert (p + q)[sp.start..sp.end] == p[sp.start..sp.end];
      assert (p + q)[sp.end..] == p[sp.end..] + q;
      var a, w, b := p[..sp.start], OpenMarker + p[sp.start..sp.end] + CloseMarker, p[sp.end..];
      assert Mark(p + q, sp) == a + (w + (b + q));
      assert Mark(p, sp) == a + (w + b);
      Assoc(w, b, q);
      Assoc(a, w + b, q);
      assert Mark(p + q, sp) == Mark(p, sp) + q;
      assert InBounds(spans[1..], |Mark(p, sp)|);
      HighlightPrefix(Mark(p, sp), q, spans[1..]);
    }
  }

  /** The spans after the first lie before it, and stay separated. */
  lemma SeparatedTail(text: string, spans: seq<Span>)
    requires spans != [] && InBounds(spans, |text|) && Separated(spans)
    ensures InBounds(spans[1..], spans[0].start) && Separated(spans[1..])
  {
    var rest := spans[1..];
    forall k | 0 <= k < |rest| ensures 0 <= rest[k].start <= rest[k].end <= spans[0].start {
      assert rest[k] == spans[k + 1];
    }
    forall i, j | 0 <= i < j < |rest| ensures rest[j].end <= rest[i].start {
      assert rest[i] == spans[i + 1] && rest[j] == spans[j + 1];
    }
  }

  /** The segments of separated spans: those before the first span, then it and what follows it. */
  lemma SegmentsUnfold(text: string, spans: seq<Span>)
    requires spans != [] && InBounds(spans, |text|) && Separated(spans)
    ensures InBounds(spans[1..], spans[0].start) && Separated(spans[1..])
    ensures Segments(text, spans) == Segments(text[..spans[0].start], spans[1..])
      + [Marked(text[spans[0].start..spans[0].end]), Plain(text[spans[0].end..])]
  {
    SeparatedTail(text, spans);
  }

  /** Deleting the markers of the segments gives the text back. */
  lemma {:induction false} EraseSegments(text: string, spans: seq<Span>)
    requires InBounds(spans, |text|) && Separated(spans)
    ensures Erase(Segments(text, spans)) == text
    decreases |spans|
  {
    if spans == [] {
      assert [Plain(text)][..0] == [];
    } else {
      var sp := spans[0];
      var p, mid, tail := text[..sp.start], text[sp.start..sp.end], text[sp.end..];
      SegmentsUnfold(text, spans);
      EraseSegments(p, spans[1..]);
      var front := Segments(p, spans[1..]);
      AppendTwo(front, Marked(mid), Plain(tail));
      assert Erase(Segments(text, spans)) == Erase(front) + mid + tail;
      CutThree(text, sp.start, sp.end);
    }
  }

  /**
   * For separated spans in descending order the highlighted text is the
   * text cut into plain and marked pieces.
   */
  lemma {:induction false} RenderSegments(text: string, spans: seq<Span>)
    requires InBounds(spans, |text|) && Separated(spans)
    ensures Render(Segments(text, spans)) == Highlight(text, spans)
    decreases |spans|
  {
    if spans == [] {
      assert [Plain(text)][..0] == [];
    } else {
      SeparatedTail(text, spans);
      RenderSegments(text[..spans[0].start], spans[1..]);
      RenderStep(text, spans);
    }
  }

  lemma Assoc<T>(a: seq<T>, b: seq<T>, c: seq<T>)
    ensures a + b + c == a + (b + c)
  {
  }

  /** One span more: the segments before it render as their highlighted prefix. */
  lemma RenderStep(text: string, spans: seq<Span>)
    requires spans != [] && InBounds(spans, |text|) && Separated(spans)
    requires InBounds(spans[1..], spans[0].start) && Separated(spans[1..])
    requires Render(Segments(text[..spans[0].start], spans[1..])) == Highlight(text[..spans[0].start], spans[1..])
    ensures Render(Segments(text, spans)) == Highlight(text, spans)
  {
    var sp := spans[0];
    var p, mid, tail := text[..sp.start], text[sp.start..sp.end], text[sp.end..];
    var q := OpenMarker + mid + CloseMarker + tail;
    SegmentsUnfold(text, spans);
    var front := Segments(p, spans[1..]);
    AppendTwo(front, Marked(mid), Plain(tail));
    MarkSplit(text, sp);
    HighlightPrefix(p, q, spans[1..]);
    var w := Shown(Marked(mid));
    assert Render(Segments(text, spans)) == Highlight(p, spans[1..]) + w + tail;
    assert q == w + tail;
    Assoc(Highlight(p, spans[1..]), w, tail);
    assert Highlight(text, spans) == Highlight(p + q, spans[1..]);
  }

  /** Two spans do not overlap. */
  predicate Apart(a: Span, b: Span) {
    a.end <= b.start || b.end <= a.start
  }

  /** No two positions of the list hold overlapping spans. */
  predicate PairApart(spans: seq<Span>) {
    forall i, j :: 0 <= i < |spans| && 0 <= j < |spans| && i != j ==> Apart(spans[i], spans[j])
  }

  lemma PairApartTail(spans: seq<Span>)
    requires spans != [] && PairApart(spans)
    ensures PairApart(spans[1..])
  {
    var rest := spans[1..];
    forall i, j | 0 <= i < |rest| && 0 <= j < |rest| && i != j ensures Apart(rest[i], rest[j]) {
      assert rest[i] == spans[i + 1] && rest[j] == spans[j + 1];
    }
  }

  /** A span apart from every span of an apart list can be put in front of it. */
  lemma ConsApart(y: Span, t: seq<Span>)
    requires PairApart(t)
    requires forall k :: 0 <= k < |t| ==> Apart(y, t[k])
    ensures PairApart([y] + t)
  {
    var r := [y] + t;
    forall i, j | 0 <= i < |r| && 0 <= j < |r| && i != j ensures Apart(r[i], r[j]) {
      if i > 0 && j > 0 {
        assert r[i] == t[i - 1] && r[j] == t[j - 1];
      } else if i == 0 {
        assert r[j] == t[j - 1];
      } else {
        assert r[i] == t[i - 1];
      }
    }
  }

  /** The span at a later position of an apart list is apart from the first. */
  lemma HeadApart(spans: seq<Span>, e: Span)
    requires spans != [] && PairApart(spans) && e in spans[1..]
    ensures Apart(spans[0], e)
  {
    var k :| 0 <= k < |spans[1..]| && spans[1..][k] == e;
    assert spans[k + 1] == e;
  }

  lemma {:induction false} InsertApart(x: Span, ys: seq<Span>, key: Span -> real)
    requires PairApart(ys)
    requires forall k :: 0 <= k < |ys| ==> Apart(x, ys[k])
    ensures PairApart(Insert(x, ys, key))
    decreases |ys|
  {
    if ys != [] && key(ys[0]) > key(x) {
      var rest := ys[1..];
      PairApartTail(ys);
      forall k | 0 <= k < |rest| ensures Apart(x, rest[k]) {
        assert rest[k] == ys[k + 1];
      }
      InsertApart(x, rest, key);
      var t := Insert(x, rest, key);
      forall k | 0 <= k < |t| ensures Apart(ys[0], t[k]) {
        assert t[k] in multiset(rest) + multiset{x};
        if t[k] != x {
          HeadApart(ys, t[k]);
        } else {
          assert Apart(x, ys[0]);
        }
      }
      assert Insert(x, ys, key) == [ys[0]] + t;
      ConsApart(ys[0], t);
    } else {
      ConsApart(x, ys);
    }
  }

  /** Sorting keeps spans pairwise apart. */
  lemma {:induction false} SortApart(xs: seq<Span>, key: Span -> real)
    requires PairApart(xs)
    ensures PairApart(SortDesc(xs, key))
    decreases |xs|
  {
    if xs != [] {
      var rest := xs[1..];
      PairApartTail(xs);
      SortApart(rest, key);
      var s := SortDesc(rest, key);
      forall k | 0 <= k < |s| ensures Apart(xs[0], s[k]) {
        assert s[k] in multiset(rest);
        HeadApart(xs, s[k]);
      }
      InsertApart(xs[0], s, key);
    }
  }

  /** The key orders spans inside the text by start, then end. */
  lemma KeyOrder(n: nat, a: Span, b: Span)
    requires 0 <= a.start <= a.end <= n && 0 <= b.start <= b.end <= n
    ensures a.start < b.start ==> SpanKey(n)(a) < SpanKey(n)(b)
    ensures a.start == b.start && a.end < b.end ==> SpanKey(n)(a) < SpanKey(n)(b)
  {
    if a.start < b.start {
      calc {
        a.start * (n + 1) + a.end;
      <= a.start * (n + 1) + n;
      < (a.start + 1) * (n + 1);
      <= { MulMonotone(a.start + 1, b.start, n + 1); }
        b.start * (n + 1);
      <= b.start * (n + 1) + b.end;
      }
    }
  }

  lemma MulMonotone(x: int, y: int, c: nat)
    requires x <= y
    ensures x * c <= y * c
  {
  }

  /** Pairwise apart spans sorted by the key are separated. */
  lemma SortedSeparated(spans: seq<Span>, n: nat)
    requires InBounds(spans, n) && PairApart(spans) && SortedDesc(spans, SpanKey(n))
    ensures Separated(spans)
  {
    forall i, j | 0 <= i < j < |spans| ensures spans[j].end <= spans[i].start {
      KeyOrder(n, spans[i], spans[j]);
      assert Apart(spans[i], spans[j]);
    }
  }

  /**
   * When the matched sentences' first occurrences do not overlap, the
   * highlighted text is the original cut into plain and marked pieces,
   * each marked piece a matched sentence, and deleting the markers gives
   * the original text back.
   */
  lemma HighlightKeepsText(text: string, ts: seq<string>, matched: set<nat>)
    requires PairApart(FoundSpans(text, ts, matched, |ts|))
    ensures var ordered := SortDesc(FoundSpans(text, ts, matched, |ts|), SpanKey(|text|));
      && InBounds(ordered, |text|) && Separated(ordered)
      && Render(Segments(text, ordered)) == Highlight(text, ordered)
      && Erase(Segments(text, ordered)) == text
  {
    var spans := FoundSpans(text, ts, matched, |ts|);
    var ordered := SortDesc(spans, SpanKey(|text|));
    SortKeepsBounds(spans, |text|, SpanKey(|text|));
    SortApart(spans, SpanKey(|text|));
    SortDescSorted(spans, SpanKey(|text|));
    SortedSeparated(ordered, |text|);
    RenderSegments(text, ordered);
    EraseSegments(text, ordered);
  }

  // ----- split_text_into_chunks -----

  function MinNat(a: nat, b: nat): nat {
    if a <= b then a else b
  }

  /** The words of chunk `k`: from word 15k, at most 20 of them. */
  function Window(words: seq<string>, k: nat): seq<string>
    requires ChunkStep * k <= |words|
  {
    words[ChunkStep * k..MinNat(ChunkStep * k + ChunkSize, |words|)]
  }

  /** `split_text_into_chunks(text)` with its default sizes. */
  method SplitTextIntoChunks(text: string) returns (chunks: seq<string>)
    ensures |chunks| == (|Words(text)| + ChunkStep - 1) / ChunkStep
    ensures forall k :: 0 <= k < |chunks| ==>
      ChunkStep * k < |Words(text)| && chunks[k] == Join(" ", Window(Words(text), k))
  {
    var words := Words(text);
    chunks := [];
    var i := 0;
    while i < |words|
      invariant i == ChunkStep * |chunks|
      invariant chunks != [] ==> i - ChunkStep < |words|
      invariant forall k :: 0 <= k < |chunks| ==>
        ChunkStep * k < |words| && chunks[k] == Join(" ", Window(words, k))
    {
      var chunk := Join(" ", words[i..MinNat(i + ChunkSize, |words|)]);
      chunks := chunks + [chunk];
      i := i + ChunkStep;
    }
    ChunkCount(|words|, |chunks|);
  }

  /** A loop stepping by 15 that stops at the first step reaching `n` takes ceil(n / 15) steps. */
  lemma ChunkCount(n: nat, c: nat)
    requires ChunkStep * c >= n && (c > 0 ==> ChunkStep * (c - 1) < n)
    ensures c == (n + ChunkStep - 1) / ChunkStep
  {
    var q, r := (n + ChunkStep - 1) / ChunkStep, (n + ChunkStep - 1) % ChunkStep;
    assert n + ChunkStep - 1 == ChunkStep * q + r && 0 <= r < ChunkStep;
  }

  /** Every chunk holds between 1 and 20 words. */
  lemma WindowSize(words: seq<string>, k: nat)
    requires ChunkStep * k < |words|
    ensures 1 <= |Window(words, k)| <= ChunkSize
  {
  }

  /** Consecutive chunks share five words: the tail of one starts the next. */
  lemma WindowOverlap(words: seq<string>, k: nat)
    requires ChunkStep * (k + 1) < |words|
    ensures |Window(words, k)| > ChunkStep
    ensures Window(words, k)[ChunkStep..] == Window(words, k + 1)[..|Window(words, k)| - ChunkStep]
  {
  }

  /** Every word lies in some chunk: word `w` is word `w % 15` of chunk `w / 15`. */
  lemma WindowsCover(words: seq<string>, w: nat)
    requires w < |words|
    ensures ChunkStep * (w / ChunkStep) <= w
    ensures w % ChunkStep < |Window(words, w / ChunkStep)|
    ensures Window(words, w / ChunkStep)[w % ChunkStep] == words[w]
  {
  }

  // ----- split_into_sentences -----

  predicate Terminator(c: char) {
    c == '.' || c == '!' || c == '?'
  }

  predicate NotTerminator(c: char) {
    !Terminator(c)
  }

  /** `re.split(r'[.!?]', text)`: the pieces between sentence terminators. */
  function SplitAtTerminators(s: string): (r: seq<string>)
    ensures |r| >= 1
    ensures forall k :: 0 <= k < |r| ==> forall c :: c in r[k] ==> !Terminator(c)
    decreases |s|
  {
    if s == [] then [""]
    else
      var rest := SplitAtTerminators(s[1..]);
      if Terminator(s[0]) then
        assert forall k :: 1 <= k < |rest| + 1 ==> ([""] + rest)[k] == rest[k - 1];
        [""] + rest
      else
        var r := [[s[0]] + rest[0]] + rest[1..];
        assert forall k :: 1 <= k < |r| ==> r[k] == rest[k];
        r
  }

  /** The concatenation of strings. */
  function Concat(parts: seq<string>): string
    decreases |parts|
  {
    if parts == [] then "" else parts[0] + Concat(parts[1..])
  }

  /** Gluing the pieces back gives the text without its terminators. */
  lemma {:induction false} SplitDropsOnlyTerminators(s: string)
    ensures Concat(SplitAtTerminators(s)) == Filter(s, NotTerminator)
    ensures |SplitAtTerminators(s)| == |Filter(s, Terminator)| + 1
    decreases |s|
  {
    if s != [] {
      SplitDropsOnlyTerminators(s[1..]);
      FilterCons(s[0], s[1..], NotTerminator);
      FilterCons(s[0], s[1..], Terminator);
      assert s == [s[0]] + s[1..];
      var rest := SplitAtTerminators(s[1..]);
      if !Terminator(s[0]) {
        var r := [[s[0]] + rest[0]] + rest[1..];
        assert r[1..] == rest[1..];
        assert Concat(rest) == rest[0] + Concat(rest[1..]);
      } else {
        assert ([""] + rest)[1..] == rest;
      }
    }
  }

  predicate HasText(s: string) {
    Strip(s) != []
  }

  /** `[s.strip() for s in sentences if s.strip()]`. */
  function Cleaned(pieces: seq<string>): (r: seq<string>)
    ensures |r| <= |pieces|
    ensures forall k :: 0 <= k < |r| ==> r[k] != [] && !IsSpace(r[k][0]) && !IsSpace(r[k][|r[k]| - 1])
  {
    var kept := Filter(pieces, HasText);
    Map(kept, Strip)
  }

  /** The last-resort split: stripped, non-blank pieces between terminators. */
  function LastResortSentences(text: string): seq<string> {
    Cleaned(SplitAtTerminators(text))
  }

  /** Stripping keeps only characters of the string. */
  lemma StripKeepsChars(s: string, c: char)
    requires c in Strip(s)
    ensures c in s
  {
    var i := StripSlice(s);
    var k :| 0 <= k < |Strip(s)| && Strip(s)[k] == c;
    assert s[i + k] == c;
  }

  /** No last-resort sentence holds a terminator. */
  lemma LastResortHasNoTerminator(text: string, k: nat, c: char)
    requires k < |LastResortSentences(text)| && c in LastResortSentences(text)[k]
    ensures !Terminator(c)
  {
    var pieces := SplitAtTerminators(text);
    var kept := Filter(pieces, HasText);
    var piece := kept[k];
    FilterKeeps(pieces, HasText, piece);
    var m :| 0 <= m < |pieces| && pieces[m] == piece;
    assert LastResortSentences(text)[k] == Strip(piece);
    StripKeepsChars(piece, c);
  }

  /** A text with no terminators and some non-blank content is one sentence: itself, stripped. */
  lemma NoTerminatorOneSentence(text: string)
    requires forall k :: 0 <= k < |text| ==> !Terminator(text[k])
    requires !AllSpace(text)
    ensures LastResortSentences(text) == [Strip(text)]
  {
    SplitDropsOnlyTerminators(text);
    FilterNone(text, Terminator);
    FilterAll(text, NotTerminator);
    var pieces := SplitAtTerminators(text);
    assert |Filter(text, Terminator)| == 0;
    assert |pieces| == 1;
    assert pieces[1..] == [];
    assert Concat(pieces[1..]) == "";
    assert Concat(pieces) == pieces[0];
    assert pieces[0] == text;
    assert pieces == [text];
    StripEmpty(text);
    assert [text][..0] == [];
    assert Filter(pieces, HasText) == [text];
  }

  /**
   * `split_into_sentences(text)`, given what NLTK and the abbreviation-aware
   * regex split produced: the NLTK sentences, else the regex pieces if
   * there are at least two, else the last-resort split.
   */
  function SplitIntoSentences(text: string, nltk: Attempt<seq<string>>, regex: Attempt<seq<string>>): (r: seq<string>)
    ensures nltk.Raised? ==> forall k :: 0 <= k < |r| ==> r[k] != []
  {
    match nltk
    case Returned(sentences) => sentences
    case Raised(_) =>
      if regex.Returned? && |regex.value| > 1 then Cleaned(regex.value)
      else LastResortSentences(text)
  }
}
