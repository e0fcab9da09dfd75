/**
 * `extract_search_phrases(text, num_phrases)` of `scraping.py`: the
 * sentences worth searching for, the most distinctive first.
 *
 * The sentences are what `sent_tokenize(text)` returned (or the regex
 * split it falls back to), the `sentences` argument.
 */
module SearchPhrases {
  import opened Wrappers
  import opened Strings
  import opened Lists
  import opened Keywords

  /** A sentence with its score. */
  type Scored = (string, real)

  function StripAll(): string -> string {
    (s: string) => Strip(s)
  }

  /** A stripped sentence is kept when it is longer than 20 characters. */
  function LongEnough(): string -> bool {
    (s: string) => |s| > 20
  }

  /** `[s.strip() for s in sentences if len(s.strip()) > 20]`. */
  function Candidates(sentences: seq<string>): (r: seq<string>)
    ensures forall k :: 0 <= k < |r| ==> |r[k]| > 20
  {
    Filter(Map(sentences, StripAll()), LongEnough())
  }

  /** `sum(len(w) for w in words)`. */
  function TotalLength(words: seq<string>): nat {
    if words == [] then 0 else |words[0]| + TotalLength(words[1..])
  }

  /**
   * The score of a sentence, `len(set(words)) * (average word length / 5)`
   * over its keywords, or none for fewer than three keywords.
   */
  function Score(sentence: string): (r: Option<real>)
    ensures r.Some? <==> |LongWords(Lower(sentence))| >= 3
  {
    var words := LongWords(Lower(sentence));
    if |words| < 3 then None
    else Some(|set w | w in words| as real * ((TotalLength(words) as real / |words| as real) / 5.0))
  }

  /** `scored_sentences`: the scorable candidates with their scores, in order. */
  function ScoredSentences(candidates: seq<string>): (r: seq<Scored>)
    ensures forall k :: 0 <= k < |r| ==> r[k].0 in candidates && Score(r[k].0) == Some(r[k].1)
    decreases |candidates|
  {
    if candidates == [] then []
    else
      var n := |candidates| - 1;
      var r := ScoredSentences(candidates[..n]);
      assert forall k :: 0 <= k < |r| ==> r[k].0 in candidates by {
        forall k | 0 <= k < |r| ensures r[k].0 in candidates {
          var j :| 0 <= j < n && candidates[..n][j] == r[k].0;
          assert candidates[j] == r[k].0;
        }
      }
      match Score(candidates[n])
      case None => r
      case Some(v) => r + [(candidates[n], v)]
  }

  function ByScore(): Scored -> real {
    (e: Scored) => e.1
  }

  function SentenceOf(): Scored -> string {
    (e: Scored) => e.0
  }

  /** `[s[0] for s in scored_sentences[:num_phrases]]` after the stable sort by score. */
  function Picks(candidates: seq<string>, n: int): seq<string> {
    Map(Take(SortDesc(ScoredSentences(candidates), ByScore()), n), SentenceOf())
  }

  /**
   * The top-up loop: each candidate not yet selected is appended, until
   * `n` are selected.
   */
  function TopUp(selected: seq<string>, candidates: seq<string>, n: int): seq<string>
    decreases |candidates|
  {
    if candidates == [] then selected
    else if candidates[0] in selected then TopUp(selected, candidates[1..], n)
    else if |selected + [candidates[0]]| >= n then selected + [candidates[0]]
    else TopUp(selected + [candidates[0]], candidates[1..], n)
  }

  /** `selected` once topped up, before the final cut to `n`. */
  function Selection(candidates: seq<string>, n: int): seq<string> {
    var picks := Picks(candidates, n);
    if |picks| < n then TopUp(picks, candidates, n) else picks
  }

  /** What `extract_search_phrases(text, n)` returns for the tokenizer's `sentences`. */
  function Phrases(text: string, sentences: seq<string>, n: int): seq<string> {
    var c := Candidates(sentences);
    if c == [] then [Take(text, 100)] else Take(Selection(c, n), n)
  }

  /** The scoring loop. */
  method ScoreSentences(candidates: seq<string>) returns (scored: seq<Scored>)
    ensures scored == ScoredSentences(candidates)
  {
    scored := [];
    var i := 0;
    while i < |candidates|
      invariant 0 <= i <= |candidates|
      invariant scored == ScoredSentences(candidates[..i])
    {
      assert candidates[..i + 1][..i] == candidates[..i];
      assert candidates[..i + 1][i] == candidates[i];
      var score := Score(candidates[i]);
      if score.Some? {
        scored := scored + [(candidates[i], score.value)];
      }
      i := i + 1;
    }
    assert candidates[..|candidates|] == candidates;
  }

  /** The loop that tops `selected` up from the candidates in their order. */
  method TopUpFrom(selected: seq<string>, candidates: seq<string>, n: int) returns (r: seq<string>)
    ensures r == TopUp(selected, candidates, n)
  {
    r := selected;
    var i := 0;
    while i < |candidates|
      invariant 0 <= i <= |candidates|
      invariant TopUp(r, candidates[i..], n) == TopUp(selected, candidates, n)
    {
      assert candidates[i..][1..] == candidates[i + 1..];
      if candidates[i] !in r {
        r := r + [candidates[i]];
        if |r| >= n {
          return;
        }
      }
      i := i + 1;
    }
  }

  /** `extract_search_phrases(text, num_phrases)`. */
  method ExtractSearchPhrases(text: string, sentences: seq<string>, n: int) returns (r: seq<string>)
    ensures r == Phrases(text, sentences, n)
  {
    var candidates := Candidates(sentences);
    if candidates == [] {
      return [Take(text, 100)];
    }
    var scored := ScoreSentences(candidates);
    scored := SortDesc(scored, ByScore());
    var selected := Map(Take(scored, n), SentenceOf());
    if |selected| < n {
      selected := TopUpFrom(selected, candidates, n);
    }
    r := Take(selected, n);
  }

  // ----- Properties -----

  /** Topping up keeps the selection as its prefix and appends only new candidates. */
  lemma {:induction false} TopUpShape(selected: seq<string>, candidates: seq<string>, n: int)
    ensures |TopUp(selected, candidates, n)| >= |selected|
    ensures TopUp(selected, candidates, n)[..|selected|] == selected
    ensures forall k :: |selected| <= k < |TopUp(selected, candidates, n)| ==>
      TopUp(selected, candidates, n)[k] in candidates && TopUp(selected, candidates, n)[k] !in TopUp(selected, candidates, n)[..k]
    ensures |selected| < n ==> |TopUp(selected, candidates, n)| <= n
    ensures (exists k :: 0 <= k < |candidates| && candidates[k] !in selected) ==> |TopUp(selected, candidates, n)| > |selected|
    decreases |candidates|
  {
    if candidates != [] {
      var c := candidates[0];
      var rest := candidates[1..];
      var t := TopUp(selected, candidates, n);
      assert forall x :: x in rest ==> x in candidates;
      if c in selected {
        TopUpShape(selected, rest, n);
        if exists k :: 0 <= k < |candidates| && candidates[k] !in selected {
          var k :| 0 <= k < |candidates| && candidates[k] !in selected;
          assert k > 0 && rest[k - 1] !in selected;
        }
      } else if |selected + [c]| >= n {
        assert t == selected + [c] && t[..|selected|] == selected;
      } else {
        var s2 := selected + [c];
        TopUpShape(s2, rest, n);
        assert t[..|s2|] == s2;
        assert t[..|selected|] == s2[..|selected|] == selected;
        forall k | |selected| <= k < |t|
          ensures t[k] in candidates && t[k] !in t[..k]
        {
          if k == |selected| {
            assert t[k] == s2[k] == c;
            assert t[..k] == selected;
          }
        }
      }
    }
  }

  /** Every picked sentence is a candidate with at least three keywords. */
  lemma PicksScored(candidates: seq<string>, n: int)
    ensures forall k :: 0 <= k < |Picks(candidates, n)| ==>
      Picks(candidates, n)[k] in candidates && |LongWords(Lower(Picks(candidates, n)[k]))| >= 3
  {
    var s := ScoredSentences(candidates);
    var sorted := SortDesc(s, ByScore());
    var top := Take(sorted, n);
    forall k | 0 <= k < |top|
      ensures top[k].0 in candidates && Score(top[k].0).Some?
    {
      TopOfSortedIn(s, ByScore(), n, k);
    }
  }

  /** The picks come in non-increasing score order: every pick is scored, none below a later one. */
  lemma PicksRanked(candidates: seq<string>, n: int)
    ensures forall i, j :: 0 <= i < j < |Picks(candidates, n)| ==>
      Score(Picks(candidates, n)[i]).Some? && Score(Picks(candidates, n)[j]).Some? &&
      Score(Picks(candidates, n)[i]).value >= Score(Picks(candidates, n)[j]).value
  {
    var s := ScoredSentences(candidates);
    var sorted := SortDesc(s, ByScore());
    var top := Take(sorted, n);
    var picks := Picks(candidates, n);
    SortDescSorted(s, ByScore());
    TakeSorted(sorted, ByScore(), n);
    forall k | 0 <= k < |top| ensures Score(picks[k]) == Some(top[k].1) {
      TopOfSortedIn(s, ByScore(), n, k);
    }
  }

  /**
   * The selection starts with the picks, holds only candidates, adds no
   * candidate twice after the picks, and is not empty.
   */
  lemma {:induction false} SelectionShape(candidates: seq<string>, n: int)
    requires candidates != []
    ensures var sel := Selection(candidates, n); var picks := Picks(candidates, n);
      (n >= 1 ==> |sel| >= 1) && |sel| >= |picks| && sel[..|picks|] == picks
      && (|picks| < n ==> |sel| <= n)
      && (forall k :: 0 <= k < |sel| ==> sel[k] in candidates)
      && (forall k :: |picks| <= k < |sel| ==> sel[k] !in sel[..k])
  {
    var picks := Picks(candidates, n);
    PicksScored(candidates, n);
    if |picks| < n {
      TopUpShape(picks, candidates, n);
      if picks == [] {
        assert candidates[0] !in picks;
      }
      var sel := TopUp(picks, candidates, n);
      assert sel == Selection(candidates, n);
      forall k | 0 <= k < |sel| ensures sel[k] in candidates {
        if k < |picks| {
          assert sel[k] == sel[..|picks|][k] == picks[k];
        }
      }
    } else {
      assert Selection(candidates, n) == picks;
      assert picks[..|picks|] == picks;
    }
  }

  /** `n` or more picks fill the selection: the top-up adds nothing. */
  lemma PicksAtMost(candidates: seq<string>, n: int)
    requires n >= 0
    ensures |Picks(candidates, n)| <= n
  {
  }

  /** Without a sentence of more than 20 characters the result is the first 100 characters of the text. */
  lemma PhrasesFallback(text: string, sentences: seq<string>, n: int)
    requires Candidates(sentences) == []
    ensures Phrases(text, sentences, n) == [Take(text, 100)]
    ensures |Phrases(text, sentences, n)[0]| <= 100
  {
  }

  /** Otherwise every phrase is a stripped sentence of more than 20 characters. */
  lemma {:induction false} PhrasesAreCandidates(text: string, sentences: seq<string>, n: int)
    requires Candidates(sentences) != []
    ensures forall k :: 0 <= k < |Phrases(text, sentences, n)| ==> Phrases(text, sentences, n)[k] in Candidates(sentences)
  {
    var c := Candidates(sentences);
    var sel := Selection(c, n);
    SelectionShape(c, n);
    var r := Phrases(text, sentences, n);
    assert r == sel[..|r|];
    forall k | 0 <= k < |r| ensures r[k] in c {
      assert r[k] == sel[k];
    }
  }

  /**
   * For `n >= 0` the phrases start with the picks, and the sentences
   * added after them are each new.
   */
  lemma {:induction false} PhrasesStartWithPicks(text: string, sentences: seq<string>, n: int)
    requires Candidates(sentences) != [] && n >= 0
    ensures var r := Phrases(text, sentences, n); var picks := Picks(Candidates(sentences), n);
      |picks| <= |r| && r[..|picks|] == picks
      && forall k :: |picks| <= k < |r| ==> r[k] !in r[..k]
  {
    var c := Candidates(sentences);
    var sel := Selection(c, n);
    var picks := Picks(c, n);
    SelectionShape(c, n);
    PicksAtMost(c, n);
    var r := Phrases(text, sentences, n);
    assert r == sel[..|r|];
    assert r[..|picks|] == sel[..|picks|];
    forall k | |picks| <= k < |r| ensures r[k] !in r[..k] {
      assert r[k] == sel[k] && r[..k] == sel[..k];
    }
  }

  /** The result never has more than `n` phrases for a positive `n`, and never none. */
  lemma {:induction false} PhrasesBound(text: string, sentences: seq<string>, n: int)
    requires n >= 1
    ensures 1 <= |Phrases(text, sentences, n)| <= n
  {
    var c := Candidates(sentences);
    if c != [] {
      SelectionShape(c, n);
    }
  }
}
