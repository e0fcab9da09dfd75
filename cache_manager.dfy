/**
 * `ScrapeCache`: three separate stores (content, search results, domain
 * metadata) whose entries expire a fixed number of seconds after they are
 * written. The store keys are the md5 digests of the URL or query, which
 * the model treats as the text itself (an injective key).
 */
module CacheManager {
  import opened Wrappers
  import opened Strings
  import Urls
  import Json
  import Pages

  const Day: nat := 60 * 60 * 24

  /** The keys of the `ttls` table. */
  datatype TtlClass = Search | Academic | News | Standard | Metadata

  /** The `ttls` table, in seconds. */
  function Ttl(c: TtlClass): (seconds: nat)
    ensures seconds >= Day && seconds % Day == 0
    ensures c == Search <==> seconds == Day
  {
    match c
    case Search => Day
    case Academic => 7 * Day
    case News => 3 * Day
    case Standard => 5 * Day
    case Metadata => 30 * Day
  }

  /** Search results live shortest, then news, standard and academic pages, then metadata. */
  lemma TtlOrder()
    ensures Ttl(Search) < Ttl(News) < Ttl(Standard) < Ttl(Academic) < Ttl(Metadata)
    ensures Ttl(Search) == 86400 && Ttl(Academic) == 604800 && Ttl(News) == 259200
    ensures Ttl(Standard) == 432000 && Ttl(Metadata) == 2592000
  {
  }

  const AcademicFragments: seq<string> := ["sciencedirect", "springer", "wiley", "ncbi"]
  const NewsFragments: seq<string> := ["news", "times", "post", "article"]

  /** The content class `set_content` picks from the lower-cased domain. */
  function ContentClass(domain: string): (c: TtlClass)
    ensures c == Academic || c == News || c == Standard
  {
    if AnyIn(AcademicFragments, domain) then Academic
    else if AnyIn(NewsFragments, domain) then News
    else Standard
  }

  /** How far down the `if`/`elif` chain a class is picked. */
  function ClassRank(c: TtlClass): nat {
    match c
    case Academic => 2
    case News => 1
    case _ => 0
  }

  /**
   * A longer domain (a subdomain, say) that contains a shorter one never
   * gets a class further down the chain.
   */
  lemma {:induction false} ContentClassExtension(d: string, a: string, b: string)
    ensures ClassRank(ContentClass(a + d + b)) >= ClassRank(ContentClass(d))
  {
    if AnyIn(AcademicFragments, d) {
      AnyInExtended(AcademicFragments, d, a, b);
    } else if AnyIn(NewsFragments, d) {
      AnyInExtended(NewsFragments, d, a, b);
    }
  }

  /** The time-to-live `set_content` gives a URL's result. */
  function ContentTtl(url: string): (seconds: nat)
    ensures seconds >= 3 * Day
  {
    Ttl(ContentClass(Lower(Urls.Netloc(url))))
  }

  /** An entry and the time after which diskcache no longer returns it. */
  datatype Entry<V> = Entry(value: V, expiresAt: real)

  type Store<V> = map<string, Entry<V>>

  /** `cache.get(key)`: the value while `now` is before its expiry time, else `None`. */
  function Lookup<V>(s: Store<V>, key: string, now: real): (r: Option<V>)
    ensures r.Some? ==> key in s && r.value == s[key].value && now < s[key].expiresAt
    ensures r.None? ==> key !in s || s[key].expiresAt <= now
  {
    if key in s && now < s[key].expiresAt then Some(s[key].value) else None
  }

  /** `cache.set(key, value, expire=ttl)` at time `now`. */
  function Put<V>(s: Store<V>, key: string, value: V, ttl: nat, now: real): (r: Store<V>)
    ensures r.Keys == s.Keys + {key}
    ensures forall k :: k in s && k != key ==> r[k] == s[k]
  {
    s[key := Entry(value, now + ttl as real)]
  }

  /** `cache.expire()`: drop the entries whose expiry time has passed. */
  function Expire<V>(s: Store<V>, now: real): (r: Store<V>)
    ensures r.Keys <= s.Keys
    ensures forall k :: k in r ==> r[k] == s[k] && now <= s[k].expiresAt
    ensures forall k :: k in s && now <= s[k].expiresAt ==> k in r
  {
    map k | k in s && now <= s[k].expiresAt :: s[k]
  }

  /** Reading a key back before its time-to-live has passed gives the written value. */
  lemma {:induction false} LookupAfterPut<V>(s: Store<V>, key: string, value: V, ttl: nat, now: real, later: real)
    requires now <= later
    ensures later < now + ttl as real ==> Lookup(Put(s, key, value, ttl, now), key, later) == Some(value)
    ensures later >= now + ttl as real ==> Lookup(Put(s, key, value, ttl, now), key, later) == None
  {
    assert Put(s, key, value, ttl, now)[key] == Entry(value, now + ttl as real);
  }

  /** A write leaves every other key's reading unchanged. */
  lemma {:induction false} LookupOtherKey<V>(s: Store<V>, key: string, other: string, value: V, ttl: nat, now: real, t: real)
    requires other != key
    ensures Lookup(Put(s, key, value, ttl, now), other, t) == Lookup(s, other, t)
  {
    var r := Put(s, key, value, ttl, now);
    assert other in r <==> other in s;
  }

  /** Clearing expired entries changes no reading taken at that time or later. */
  lemma {:induction false} ExpireKeepsLookups<V>(s: Store<V>, now: real, key: string, t: real)
    requires now <= t
    ensures Lookup(Expire(s, now), key, t) == Lookup(s, key, t)
  {
  }

  /**
   * What the three `diskcache` directories under `cache_dir` already hold.
   * They persist on disk, so a new `ScrapeCache` over the same directory
   * sees the entries earlier instances wrote.
   */
  datatype CacheDir = CacheDir(
    content: Store<Pages.ScrapeResult>,
    search: Store<seq<Pages.SearchHit>>,
    metadata: Store<Json.Value>)

  class ScrapeCache {
    var content: Store<Pages.ScrapeResult>
    var search: Store<seq<Pages.SearchHit>>
    var metadata: Store<Json.Value>

    /** `ScrapeCache(cache_dir)`: opens the three stores of the directory `dir`. */
    constructor (dir: CacheDir)
      ensures content == dir.content && search == dir.search && metadata == dir.metadata
    {
      content, search, metadata := dir.content, dir.search, dir.metadata;
    }

    /** `get_content(url)`. */
    function GetContent(url: string, now: real): (r: Option<Pages.ScrapeResult>)
      reads this
    {
      Lookup(content, url, now)
    }

    /** `set_content(url, result)`: the TTL follows the domain's content class. */
    method SetContent(url: string, result: Pages.ScrapeResult, now: real)
      modifies this
      ensures content == Put(old(content), url, result, ContentTtl(url), now)
      ensures search == old(search) && metadata == old(metadata)
    {
      content := Put(content, url, result, ContentTtl(url), now);
    }

    function GetSearchResults(query: string, now: real): (r: Option<seq<Pages.SearchHit>>)
      reads this
    {
      Lookup(search, query, now)
    }

    method SetSearchResults(query: string, results: seq<Pages.SearchHit>, now: real)
      modifies this
      ensures search == Put(old(search), query, results, Ttl(Search), now)
      ensures content == old(content) && metadata == old(metadata)
    {
      search := Put(search, query, results, Ttl(Search), now);
    }

    /** `get_domain_info(domain)`: keyed by the raw domain text. */
    function GetDomainInfo(domain: string, now: real): (r: Option<Json.Value>)
      reads this
    {
      Lookup(metadata, domain, now)
    }

    method SetDomainInfo(domain: string, info: Json.Value, now: real)
      modifies this
      ensures metadata == Put(old(metadata), domain, info, Ttl(Metadata), now)
      ensures content == old(content) && search == old(search)
    {
      metadata := Put(metadata, domain, info, Ttl(Metadata), now);
    }

    method ClearExpired(now: real)
      modifies this
      ensures content == Expire(old(content), now)
      ensures search == Expire(old(search), now)
      ensures metadata == Expire(old(metadata), now)
    {
      content := Expire(content, now);
      search := Expire(search, now);
      metadata := Expire(metadata, now);
    }
  }
}
