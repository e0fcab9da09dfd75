/**
 * `urllib.parse.urlparse` as far as the modelled code uses it: the
 * `netloc` and `path` components of a URL (CPython 3.11+ behaviour).
 * The `ValueError`s of `urlsplit` are not modelled: the checks on
 * bracketed hosts, the invalid-IPv6 check, and `_checknetloc`'s NFKC
 * normalisation check of non-ASCII hosts.
 */
module Urls {
  import opened Strings

  datatype ParsedUrl = ParsedUrl(
    scheme: string, netloc: string, path: string,
    params: string, query: string, fragment: string)

  predicate IsAsciiAlpha(c: char) {
    ('a' <= c <= 'z') || ('A' <= c <= 'Z')
  }

  /** `urllib.parse.scheme_chars`. */
  predicate IsSchemeChar(c: char) {
    IsAsciiAlpha(c) || ('0' <= c <= '9') || c == '+' || c == '-' || c == '.'
  }

  /** `url.lstrip(_WHATWG_C0_CONTROL_OR_SPACE)`: drop leading characters up to U+0020. */
  function LstripControl(s: string): (r: string)
    ensures |r| <= |s| && r == s[|s| - |r|..]
    ensures r == [] || r[0] > ' '
    decreases |s|
  {
    if |s| > 0 && s[0] <= ' ' then LstripControl(s[1..]) else s
  }

  /** Remove every tab, carriage return and line feed (`_UNSAFE_URL_BYTES_TO_REMOVE`). */
  function RemoveUnsafe(s: string): (r: string)
    ensures |r| <= |s|
    ensures forall k :: 0 <= k < |r| ==> r[k] != '\t' && r[k] != '\r' && r[k] != '\n'
    decreases |s|
  {
    if s == [] then []
    else (if s[0] in "\t\r\n" then [] else [s[0]]) + RemoveUnsafe(s[1..])
  }

  /** The text urlsplit works on. */
  function Clean(url: string): string {
    RemoveUnsafe(LstripControl(url))
  }

  /** The raw scheme text of `u` (before lower-casing), or "" when `u` has no scheme. */
  function SchemeText(u: string): (r: string)
    ensures r == [] || (|r| < |u| && u[..|r|] == r && u[|r|] == ':')
  {
    var i := Find(u, ":");
    if i > 0 && IsAsciiAlpha(u[0]) && (forall k :: 0 <= k < i ==> IsSchemeChar(u[k])) then
      assert u[i..i + 1] == ":";
      u[..i]
    else ""
  }

  /** Everything after the scheme and its colon. */
  function AfterScheme(u: string): (r: string)
    ensures SchemeText(u) == [] ==> r == u
    ensures SchemeText(u) != [] ==> u == SchemeText(u) + ":" + r
  {
    var t := SchemeText(u);
    if t == [] then u
    else
      assert u == u[..|t|] + [u[|t|]] + u[|t| + 1..];
      u[|t| + 1..]
  }

  /** Index of the first '/', '?' or '#' at or after `start`, else `|s|` (`_splitnetloc`). */
  function NetlocEnd(s: string, start: nat): (e: nat)
    requires start <= |s|
    ensures start <= e <= |s|
    ensures forall k :: start <= k < e ==> s[k] != '/' && s[k] != '?' && s[k] != '#'
    ensures e < |s| ==> s[e] == '/' || s[e] == '?' || s[e] == '#'
    decreases |s| - start
  {
    if start == |s| || s[start] == '/' || s[start] == '?' || s[start] == '#' then start
    else NetlocEnd(s, start + 1)
  }

  /** `s.split(c, 1)` when `c` occurs, else `[s]`, returned as the two halves. */
  function SplitOnce(s: string, c: char): (r: (string, string))
    ensures s == r.0 + (if c in s then [c] + r.1 else "")
    ensures c !in s ==> r.1 == ""
    ensures c !in r.0
  {
    var i := FindFrom(s, c, 0);
    if i < 0 then (s, "")
    else
      assert s == s[..i] + [c] + s[i + 1..];
      (s[..i], s[i + 1..])
  }

  /** Index of the last occurrence of `c`, or -1 (`str.rfind`). */
  function RFind(s: string, c: char): (r: int)
    ensures -1 <= r < |s|
    ensures r >= 0 ==> s[r] == c
    ensures forall k :: r < k < |s| ==> s[k] != c
    decreases |s|
  {
    if s == [] then -1
    else if s[|s| - 1] == c then |s| - 1
    else RFind(s[..|s| - 1], c)
  }

  /** Index of the first `c` at or after `start`, or -1 (`str.find(c, start)`). */
  function FindFrom(s: string, c: char, start: nat): (r: int)
    ensures r == -1 || (start <= r < |s| && s[r] == c)
    ensures forall k :: start <= k < |s| && (r < 0 || k < r) ==> s[k] != c
    decreases |s| - start
  {
    if start >= |s| then -1
    else if s[start] == c then start
    else FindFrom(s, c, start + 1)
  }

  /** `_splitparams`: the parameters start at the first ';' after the last '/'. */
  function SplitParams(u: string): (r: (string, string))
    ensures r.0 == u || (|r.0| < |u| && u == r.0 + ";" + r.1)
  {
    var i := if '/' in u then FindFrom(u, ';', RFind(u, '/') as nat) else FindFrom(u, ';', 0);
    if i < 0 then (u, "")
    else
      assert u == u[..i] + ";" + u[i + 1..];
      (u[..i], u[i + 1..])
  }

  /** The schemes listed in `urllib.parse.uses_params`. */
  predicate UsesParams(scheme: string) {
    scheme in ["", "ftp", "hdl", "prospero", "http", "imap", "https", "shttp",
               "rtsp", "rtspu", "sip", "sips", "mms", "sftp", "tel"]
  }

  /**
   * The pieces `urlparse` cuts a cleaned URL into, with the raw scheme
   * text and a flag for each separator that was present.
   */
  datatype UrlPieces = UrlPieces(
    schemeText: string, hasNetloc: bool, netloc: string, path: string,
    hasParams: bool, params: string, hasQuery: bool, query: string,
    hasFragment: bool, fragment: string)

  /** The text after the netloc that the pieces were cut from. */
  function TailText(pc: UrlPieces): string {
    pc.path
    + (if pc.hasParams then ";" + pc.params else "")
    + (if pc.hasQuery then "?" + pc.query else "")
    + (if pc.hasFragment then "#" + pc.fragment else "")
  }

  /** The cleaned URL the pieces were cut from. */
  function Recombine(pc: UrlPieces): string {
    (if pc.schemeText == [] then "" else pc.schemeText + ":")
    + ((if pc.hasNetloc then "//" + pc.netloc else "") + TailText(pc))
  }

  /** `_splitnetloc` applied when the text starts with "//". */
  function SplitNetloc(rest: string): (r: (bool, string, string))
    ensures rest == (if r.0 then "//" + r.1 else "") + r.2
    ensures '/' !in r.1 && '?' !in r.1 && '#' !in r.1
  {
    if |rest| >= 2 && rest[..2] == "//" then
      var e := NetlocEnd(rest, 2);
      assert rest == "//" + rest[2..e] + rest[e..];
      (true, rest[2..e], rest[e..])
    else (false, "", rest)
  }

  /** The `;params` split, made only for the schemes that use it. */
  function SplitPathParams(q: string, scheme: string): (r: (bool, string, string))
    ensures q == r.1 + (if r.0 then ";" + r.2 else "")
  {
    var sp := SplitParams(q);
    if UsesParams(scheme) && ';' in q && sp.0 != q then (true, sp.0, sp.1)
    else (false, q, "")
  }

  /** The cutting of the text after the netloc into path, params, query and fragment. */
  function TailPieces(schemeText: string, hasNetloc: bool, netloc: string, tail: string): (pc: UrlPieces)
    ensures pc.schemeText == schemeText && pc.hasNetloc == hasNetloc && pc.netloc == netloc
    ensures '?' !in pc.path && '#' !in pc.path
    ensures TailText(pc) == tail
  {
    var (beforeFragment, fragment) := SplitOnce(tail, '#');
    var (beforeQuery, query) := SplitOnce(beforeFragment, '?');
    InConcat(beforeQuery, if '?' in beforeFragment then "?" + query else "", '#');
    var (hasParams, path, params) := SplitPathParams(beforeQuery, Lower(schemeText));
    InConcat(path, if hasParams then ";" + params else "", '#');
    InConcat(path, if hasParams then ";" + params else "", '?');
    var pc := UrlPieces(schemeText, hasNetloc, netloc, path, hasParams, params,
                        '?' in beforeFragment, query, '#' in tail, fragment);
    Nest3(path, if hasParams then ";" + params else "", if pc.hasQuery then "?" + query else "",
          if pc.hasFragment then "#" + fragment else "", tail, beforeFragment, beforeQuery);
    pc
  }

  /** The cutting done by `urlsplit` and `_splitparams`. */
  function Pieces(url: string): (pc: UrlPieces)
    ensures '/' !in pc.netloc && '?' !in pc.netloc && '#' !in pc.netloc
    ensures '?' !in pc.path && '#' !in pc.path
  {
    var u := Clean(url);
    var r := SplitNetloc(AfterScheme(u));
    TailPieces(SchemeText(u), r.0, r.1, r.2)
  }

  lemma InConcat(a: string, b: string, c: char)
    ensures c in a + b <==> c in a || c in b
  {
    if c in a {
      var i :| 0 <= i < |a| && a[i] == c;
      assert (a + b)[i] == c;
    }
    if c in b {
      var i :| 0 <= i < |b| && b[i] == c;
      assert (a + b)[|a| + i] == c;
    }
  }

  /** Cutting loses and duplicates nothing: the pieces give back the cleaned URL. */
  lemma PiecesRecombine(url: string)
    ensures Recombine(Pieces(url)) == Clean(url)
  {
    var u := Clean(url);
    var r := SplitNetloc(AfterScheme(u));
    var pc := TailPieces(SchemeText(u), r.0, r.1, r.2);
    assert Pieces(url) == pc;
    var a := if SchemeText(u) == [] then "" else SchemeText(u) + ":";
    var b := if r.0 then "//" + r.1 else "";
    assert Recombine(pc) == a + (b + TailText(pc));
    assert u == a + AfterScheme(u);
    assert u == a + (b + TailText(pc));
  }

  lemma Nest3(c: string, d: string, e: string, f: string, tail: string, bf: string, bq: string)
    requires tail == bf + f && bf == bq + e && bq == c + d
    ensures tail == c + d + e + f
  {
  }

  /** `urllib.parse.urlparse(url)`: the scheme is lower-cased. */
  function UrlParse(url: string): (p: ParsedUrl)
    ensures p.netloc == Pieces(url).netloc && p.path == Pieces(url).path
  {
    var pc := Pieces(url);
    ParsedUrl(Lower(pc.schemeText), pc.netloc, pc.path, pc.params, pc.query, pc.fragment)
  }

  /** `urlparse(url).netloc`. */
  function Netloc(url: string): string {
    UrlParse(url).netloc
  }
}
