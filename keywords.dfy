/**
 * The keywords of `scraping.py`: the words `re.findall(r'\b\w{4,}\b', s)`
 * finds, and `calculate_content_relevance`, the share of a text's
 * keywords that a source also contains, discounted for long sources.
 */
module Keywords {
  import opened Strings
  import opened Lists

  /** A character of `\w`, as far as ASCII goes: a letter, a digit or `_`. */
  predicate WordChar(c: char) {
    ('a' <= c <= 'z') || ('A' <= c <= 'Z') || ('0' <= c <= '9') || c == '_'
  }

  /** The maximal run of word characters at the front of `s`. */
  function RunPrefix(s: string): (w: string)
    ensures |w| <= |s| && w == s[..|w|]
    ensures forall k :: 0 <= k < |w| ==> WordChar(w[k])
    ensures |w| == |s| || !WordChar(s[|w|])
    ensures |s| > 0 && WordChar(s[0]) ==> |w| > 0
    decreases |s|
  {
    if |s| == 0 || !WordChar(s[0]) then "" else [s[0]] + RunPrefix(s[1..])
  }

  /** The maximal runs of word characters of `s`, in order. */
  function Runs(s: string): (r: seq<string>)
    ensures forall k :: 0 <= k < |r| ==> |r[k]| > 0
    decreases |s|
  {
    if s == [] then []
    else if !WordChar(s[0]) then Runs(s[1..])
    else
      var w := RunPrefix(s);
      var rest := Runs(s[|w|..]);
      assert forall k :: 1 <= k < |rest| + 1 ==> ([w] + rest)[k] == rest[k - 1];
      [w] + rest
  }

  /** A run `\w{4,}` matches: four characters or more. */
  function IsLong(): string -> bool {
    (w: string) => |w| >= 4
  }

  /**
   * `re.findall(r'\b\w{4,}\b', s)`: since `\w{4,}` is greedy and framed by
   * word boundaries, a match is a whole run of four or more characters.
   */
  function LongWords(s: string): (r: seq<string>)
    ensures forall k :: 0 <= k < |r| ==> |r[k]| >= 4
  {
    Filter(Runs(s), IsLong())
  }

  /** `set(re.findall(r'\b\w{4,}\b', s.lower()))`. */
  function KeywordSet(s: string): set<string> {
    set w | w in LongWords(Lower(s))
  }

  /** `min(1.0, 5000 / max(500, n))`: 1 up to 5000 characters, then shrinking. */
  function LengthFactor(n: nat): (f: real)
    ensures 0.0 < f <= 1.0
    ensures n <= 5000 ==> f == 1.0
  {
    var q := 5000.0 / (if n < 500 then 500 else n) as real;
    if q < 1.0 then q else 1.0
  }

  /**
   * `calculate_content_relevance(original, source)`: zero exactly when the
   * original has no keyword or shares none with the source, and otherwise
   * a score in (0, 100].
   */
  function Relevance(original: string, source: string): (r: real)
    ensures r == 0.0 <==> KeywordSet(original) == {} || KeywordSet(original) * KeywordSet(source) == {}
    ensures 0.0 <= r <= 100.0
  {
    var ow := KeywordSet(original);
    if ow == {} then 0.0
    else
      var common := ow * KeywordSet(source);
      if common == {} then 0.0
      else
        ShareAtMostOne(common, ow);
        var overlap := |common| as real / |ow| as real;
        Scale(overlap, LengthFactor(|source|));
        overlap * LengthFactor(|source|) * 100.0
  }

  /** An intersection with `ow` is no larger than `ow`. */
  lemma ShareAtMostOne(common: set<string>, ow: set<string>)
    requires common <= ow && common != {}
    ensures 0.0 < |common| as real / |ow| as real <= 1.0
  {
    assert |ow| == |ow - common| + |common|;
  }

  lemma Scale(a: real, b: real)
    requires 0.0 < a <= 1.0 && 0.0 < b <= 1.0
    ensures 0.0 < a * b * 100.0 <= 100.0
  {
    assert a * b <= 1.0 * b;
  }

  // ----- Properties -----

  /** Every keyword is a run of at least four word characters. */
  lemma {:induction false} KeywordShape(s: string, w: string)
    requires w in KeywordSet(s)
    ensures |w| >= 4 && forall k :: 0 <= k < |w| ==> WordChar(w[k])
  {
    FilterKeeps(Runs(Lower(s)), IsLong(), w);
    RunsAreWords(Lower(s), w);
  }

  lemma {:induction false} RunsAreWords(s: string, w: string)
    requires w in Runs(s)
    ensures forall k :: 0 <= k < |w| ==> WordChar(w[k])
    decreases |s|
  {
    if s != [] {
      if !WordChar(s[0]) {
        RunsAreWords(s[1..], w);
      } else {
        var p := RunPrefix(s);
        if w != p {
          assert Runs(s) == [p] + Runs(s[|p|..]);
          RunsAreWords(s[|p|..], w);
        }
      }
    }
  }

  /** A text with keywords is fully relevant to itself, up to the length discount. */
  lemma SelfRelevance(t: string)
    requires KeywordSet(t) != {}
    ensures Relevance(t, t) == LengthFactor(|t|) * 100.0
  {
    var ow := KeywordSet(t);
    assert ow * ow == ow;
    assert |ow| as real / |ow| as real == 1.0;
  }

  /** Relevance ignores the case of the original text. */
  lemma RelevanceIgnoresCase(original: string, source: string)
    ensures Relevance(Lower(original), source) == Relevance(original, source)
  {
    assert Lower(Lower(original)) == Lower(original);
  }

  /** A source sharing no keyword scores zero, whatever its length. */
  lemma DisjointIsIrrelevant(original: string, source: string)
    requires forall w :: w in KeywordSet(original) ==> w !in KeywordSet(source)
    ensures Relevance(original, source) == 0.0
  {
    assert KeywordSet(original) * KeywordSet(source) == {};
  }
}
