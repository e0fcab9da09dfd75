/**
 * `get_text_themes` of `embedding.py`: the rule-based theme ranking.
 * Each category of a fixed keyword table is scored by how often its
 * keywords occur in the lower-cased text; the categories that occur are
 * ranked by score and the best `max_themes` of them are the themes, or
 * `["general"]` when none occurs.
 */
module Embedding {
  import opened Strings
  import opened Lists

  /** A theme category with its keywords. */
  type Domain = (string, seq<string>)

  /** A category with its score. */
  type Entry = (string, nat)

  /** The keyword table, in declaration order. */
  const Domains: seq<Domain> := [
    ("technology", ["computer", "software", "hardware", "digital", "tech", "algorithm", "data", "internet"]),
    ("science", ["research", "experiment", "scientific", "biology", "physics", "chemistry", "study"]),
    ("medicine", ["health", "medical", "disease", "treatment", "patient", "doctor", "clinical"]),
    ("business", ["company", "market", "finance", "economic", "investment", "corporate", "startup"]),
    ("education", ["school", "student", "learning", "teaching", "academic", "education", "university"]),
    ("arts", ["creative", "art", "music", "film", "literature", "design", "culture"]),
    ("politics", ["government", "policy", "political", "election", "law", "regulation"]),
    ("environment", ["climate", "sustainable", "green", "environmental", "conservation", "ecology"])
  ]

  /** The default `max_themes`. */
  const MaxThemes := 3

  /** The theme returned when no category occurs. */
  const General := "general"

  /** Python's `s.count(p)`, whose answer for the empty pattern is `len(s) + 1`. */
  function CountOf(s: string, p: string): nat {
    if p == [] then |s| + 1 else Count(s, p)
  }

  /** `sum(lower_text.count(keyword) for keyword in keywords)`. */
  function KeywordCount(lowerText: string, keywords: seq<string>): nat
    decreases |keywords|
  {
    if keywords == [] then 0
    else KeywordCount(lowerText, keywords[..|keywords| - 1]) + CountOf(lowerText, keywords[|keywords| - 1])
  }

  /** A category scored against `lowerText`. */
  function Scored(lowerText: string): Domain -> Entry {
    (d: Domain) => (d.0, KeywordCount(lowerText, d.1))
  }

  /** The entries `domain_counts` keeps: a positive score. */
  function Positive(): Entry -> bool {
    (e: Entry) => e.1 > 0
  }

  /** The sort key: an entry's score. */
  function ByCount(): Entry -> real {
    (e: Entry) => e.1 as real
  }

  /** An entry's category. */
  function Name(): Entry -> string {
    (e: Entry) => e.0
  }

  /** `domain_counts`: the categories with a positive score, in declaration order. */
  function Counts(lowerText: string): seq<Entry> {
    Filter(Map(Domains, Scored(lowerText)), Positive())
  }

  /** `sorted(domain_counts.items(), key=count, reverse=True)`. */
  function Ranked(lowerText: string): seq<Entry> {
    SortDesc(Counts(lowerText), ByCount())
  }

  /** `sorted_domains[:max_themes]`. */
  function Top(lowerText: string, maxThemes: int): seq<Entry> {
    Take(Ranked(lowerText), maxThemes)
  }

  /**
   * What `get_text_themes(text, max_themes)` returns: never empty, at
   * most `max_themes` themes when that is positive, and `["general"]`
   * when no keyword occurs.
   */
  function Themes(text: string, maxThemes: int): (r: seq<string>)
    ensures 1 <= |r|
    ensures maxThemes >= 1 ==> |r| <= maxThemes
    ensures Counts(Lower(text)) == [] ==> r == [General]
  {
    var top := Map(Top(Lower(text), maxThemes), Name());
    if top == [] then [General] else top
  }

  /** The loop filling `domain_counts` from the keyword table `domains`. */
  method CountDomains(lowerText: string, domains: seq<Domain>) returns (counts: seq<Entry>)
    ensures counts == Filter(Map(domains, Scored(lowerText)), Positive())
  {
    counts := [];
    var i := 0;
    while i < |domains|
      invariant 0 <= i <= |domains|
      invariant counts == Filter(Map(domains[..i], Scored(lowerText)), Positive())
    {
      var (domain, keywords) := domains[i];
      var count := KeywordCount(lowerText, keywords);
      MapFilterStep(domains, i, Scored(lowerText), Positive());
      assert Scored(lowerText)(domains[i]) == (domain, count);
      if count > 0 {
        counts := counts + [(domain, count)];
      }
      i := i + 1;
    }
    assert domains[..|domains|] == domains;
  }

  /** `get_text_themes(text, max_themes)`. */
  method GetTextThemes(text: string, maxThemes: int) returns (themes: seq<string>)
    ensures themes == Themes(text, maxThemes)
  {
    var lowerText := Lower(text);
    var counts := CountDomains(lowerText, Domains);
    var sorted := SortDesc(counts, ByCount());
    themes := Map(Take(sorted, maxThemes), Name());
    if themes == [] {
      themes := [General];
    }
  }

  // ----- Properties -----

  /** "general" is not a category, so it never names a ranked entry. */
  lemma GeneralIsNoCategory(d: Domain)
    requires d in Domains
    ensures d.0 != General
  {
  }

  /**
   * Every theme other than the fallback is a category with a positive
   * score, and there the fallback is not returned.
   */
  lemma {:induction false} ThemesOccur(text: string, maxThemes: int)
    ensures Themes(text, maxThemes) == [General] <==> Top(Lower(text), maxThemes) == []
    ensures forall i :: 0 <= i < |Top(Lower(text), maxThemes)| ==>
      Top(Lower(text), maxThemes)[i] in Counts(Lower(text)) && Top(Lower(text), maxThemes)[i].1 > 0
  {
    var t := Lower(text);
    var top := Top(t, maxThemes);
    var ranked := Ranked(t);
    forall i | 0 <= i < |top|
      ensures top[i] in Counts(t) && top[i].1 > 0
    {
      assert top[i] == ranked[i];
      assert ranked[i] in multiset(ranked);
      assert ranked[i] in multiset(Counts(t));
      FilterKeeps(Map(Domains, Scored(t)), Positive(), top[i]);
    }
    if top != [] {
      var names := Map(top, Name());
      FilterKeeps(Map(Domains, Scored(t)), Positive(), top[0]);
      var k :| 0 <= k < |Domains| && Map(Domains, Scored(t))[k] == top[0];
      GeneralIsNoCategory(Domains[k]);
      assert names[0] != General;
    }
  }

  /** The themes come in non-increasing score order. */
  lemma RankedOrder(text: string, maxThemes: int)
    ensures SortedDesc(Top(Lower(text), maxThemes), ByCount())
    ensures Top(Lower(text), maxThemes) != [] ==> Themes(text, maxThemes) == Map(Top(Lower(text), maxThemes), Name())
  {
    SortDescSorted(Counts(Lower(text)), ByCount());
  }

  /** Categories with equal scores keep their declaration order. */
  lemma RankedStable(text: string, score: real)
    ensures Filter(Ranked(Lower(text)), SameKey(ByCount(), score)) == Filter(Counts(Lower(text)), SameKey(ByCount(), score))
  {
    SortDescStable(Counts(Lower(text)), ByCount(), score);
  }

  /** A category is counted exactly when one of its keywords occurs, with its score. */
  lemma {:induction false} CountsMeans(text: string, k: nat)
    requires k < |Domains|
    ensures (Domains[k].0, KeywordCount(Lower(text), Domains[k].1)) in Counts(Lower(text))
            <==> KeywordCount(Lower(text), Domains[k].1) > 0
  {
    var t := Lower(text);
    var e := (Domains[k].0, KeywordCount(t, Domains[k].1));
    FilterKeeps(Map(Domains, Scored(t)), Positive(), e);
    assert Map(Domains, Scored(t))[k] == e;
  }

  lemma LowerTwice(s: string)
    ensures Lower(Lower(s)) == Lower(s)
  {
  }

  /** Matching ignores case: lower-casing the text first changes nothing. */
  lemma ThemesIgnoreCase(text: string, maxThemes: int)
    ensures Themes(Lower(text), maxThemes) == Themes(text, maxThemes)
  {
    LowerTwice(text);
  }

  /** The occurrences `str.count` counts do not overlap: together they fit in the text. */
  lemma {:induction false} CountFits(s: string, p: string)
    requires |p| > 0
    ensures Count(s, p) * |p| <= |s|
    decreases |s|
  {
    if |s| >= |p| {
      if s[..|p|] == p {
        var c := Count(s[|p|..], p);
        CountFits(s[|p|..], p);
        assert Count(s, p) == c + 1;
        MulSucc(c, |p|);
      } else {
        CountFits(s[1..], p);
      }
    }
  }

  lemma MulSucc(c: nat, m: nat)
    ensures (c + 1) * m == c * m + m
  {
  }
}
