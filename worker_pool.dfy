/**
 * `ScraperWorkerPool`: groups a batch of URLs by host, keeps one semaphore
 * per host, schedules the hosts with the most priority fragments first and
 * collects the results that came back with content. The scheduling itself
 * is concurrent; the model keeps the bookkeeping around it.
 */
module WorkerPool {
  import opened Wrappers
  import opened Strings
  import opened Lists
  import opened Pages
  import Urls

  // ----- Grouping by host -----

  /** The grouping key of a URL, `urlparse(url).netloc`. */
  function Host(url: string): string {
    Urls.Netloc(url)
  }

  // The grouping and scheduling below are stated for any `host` function;
  // the pool applies them to `Host`.

  /** The host of every URL, in input order. */
  function DomainsOf(urls: seq<string>, host: string -> string): (ds: seq<string>)
    ensures |ds| == |urls|
    ensures forall k :: 0 <= k < |urls| ==> ds[k] == host(urls[k])
  {
    Map(urls, host)
  }

  /** The group of a host: its URLs in input order, duplicates kept. */
  function Group(urls: seq<string>, host: string -> string, d: string): seq<string> {
    Filter(urls, SameKey(host, d))
  }

  /**
   * The grouping loop of `scrape_urls`, for any key: the keys in first-seen
   * order (the key order of the `domain_groups` dictionary) and each key's
   * elements in input order.
   */
  method GroupBy<T, K(==, !new)>(xs: seq<T>, key: T -> K) returns (keys: seq<K>, groups: map<K, seq<T>>)
    ensures keys == Dedup(Map(xs, key))
    ensures forall k :: k in groups <==> k in keys
    ensures forall k :: k in groups ==> groups[k] == Filter(xs, SameKey(key, k))
  {
    keys := [];
    groups := map[];
    var i := 0;
    while i < |xs|
      invariant 0 <= i <= |xs|
      invariant Grouped(xs[..i], key, keys, groups)
    {
      var x := xs[i];
      var k := key(x);
      GroupedStep(xs, key, i, keys, groups);
      if k !in groups {
        groups := groups[k := []];
        keys := keys + [k];
      }
      groups := groups[k := groups[k] + [x]];
      i := i + 1;
    }
    assert xs[..i] == xs;
  }

  /** `keys` and `groups` are the first-seen keys and the groups of `seen`. */
  ghost predicate Grouped<T, K(!new)>(seen: seq<T>, key: T -> K, keys: seq<K>, groups: map<K, seq<T>>) {
    && keys == Dedup(Map(seen, key))
    && (forall k :: k in groups <==> k in keys)
    && (forall k :: k in groups ==> groups[k] == Filter(seen, SameKey(key, k)))
  }

  /** One turn of the grouping loop keeps `Grouped`. */
  lemma GroupedStep<T, K(!new)>(xs: seq<T>, key: T -> K, i: nat, keys: seq<K>, groups: map<K, seq<T>>)
    requires i < |xs| && Grouped(xs[..i], key, keys, groups)
    ensures var k := key(xs[i]);
      var keys' := if k in groups then keys else keys + [k];
      var groups' := if k in groups then groups else groups[k := []];
      Grouped(xs[..i + 1], key, keys', groups'[k := groups'[k] + [xs[i]]])
  {
    var k := key(xs[i]);
    var keys' := if k in groups then keys else keys + [k];
    var groups' := if k in groups then groups else groups[k := []];
    var g := groups'[k := groups'[k] + [xs[i]]];
    KeysStep(xs, key, i);
    assert keys' == Dedup(Map(xs[..i + 1], key));
    assert forall j :: j in g <==> j in keys';
    if k !in groups {
      NoGroupYet(xs[..i], key, k);
    }
    forall j | j in g ensures g[j] == Filter(xs[..i + 1], SameKey(key, j)) {
      GroupStep(xs, key, i, j);
    }
    assert Grouped(xs[..i + 1], key, keys', g);
  }

  /** One more element adds its key to the first-seen keys when it is new. */
  lemma KeysStep<T, K>(xs: seq<T>, key: T -> K, i: nat)
    requires i < |xs|
    ensures var seen := Dedup(Map(xs[..i], key));
      Dedup(Map(xs[..i + 1], key)) == if key(xs[i]) in seen then seen else seen + [key(xs[i])]
  {
    assert xs[..i + 1] == xs[..i] + [xs[i]];
    MapSnoc(xs[..i], xs[i], key);
    assert Map(xs[..i + 1], key)[..i] == Map(xs[..i], key);
  }

  /** One more element joins the group of its own key and no other. */
  lemma GroupStep<T, K>(xs: seq<T>, key: T -> K, i: nat, k: K)
    requires i < |xs|
    ensures Filter(xs[..i + 1], SameKey(key, k))
         == Filter(xs[..i], SameKey(key, k)) + (if key(xs[i]) == k then [xs[i]] else [])
  {
    assert xs[..i + 1] == xs[..i] + [xs[i]];
    FilterSnoc(xs[..i], xs[i], SameKey(key, k));
  }

  /** A key not among the first-seen keys has no element yet. */
  lemma NoGroupYet<T, K>(xs: seq<T>, key: T -> K, k: K)
    requires k !in Dedup(Map(xs, key))
    ensures Filter(xs, SameKey(key, k)) == []
  {
    forall i | 0 <= i < |xs| ensures !SameKey(key, k)(xs[i]) {
      assert Map(xs, key)[i] == key(xs[i]);
    }
    FilterNone(xs, SameKey(key, k));
  }

  // ----- Priority order -----

  const PriorityDomains: seq<string> := ["sciencedirect.com", "springer.com", "wiley.com", "ncbi.nlm.nih.gov"]

  function Holds(d: string): string -> bool {
    pd => Contains(d, pd)
  }

  /** `sum(1 for pd in priority_domains if pd in d)`. */
  function PriorityCount(d: string): (n: nat)
    ensures n <= |PriorityDomains|
  {
    |Filter(PriorityDomains, Holds(d))|
  }

  /** The sort key. */
  function Priority(d: string): real {
    PriorityCount(d) as real
  }

  /** `sorted(domain_groups.keys(), key=..., reverse=True)`. */
  function SortedDomains(urls: seq<string>, host: string -> string): seq<string> {
    SortDesc(Dedup(DomainsOf(urls, host)), Priority)
  }

  /** The hosts are ordered by priority count, highest first. */
  lemma SortedDomainsByPriority(urls: seq<string>, host: string -> string)
    ensures SortedDesc(SortedDomains(urls, host), Priority)
  {
    SortDescSorted(Dedup(DomainsOf(urls, host)), Priority);
  }

  /** Hosts with the same priority count stay in first-seen order. */
  lemma SortedDomainsStable(urls: seq<string>, host: string -> string, n: nat)
    ensures Filter(SortedDomains(urls, host), SameKey(Priority, n as real))
         == Filter(Dedup(DomainsOf(urls, host)), SameKey(Priority, n as real))
  {
    SortDescStable(Dedup(DomainsOf(urls, host)), Priority, n as real);
  }

  /** A host gets a positive count exactly when it contains a priority fragment. */
  lemma PriorityPositive(d: string)
    ensures PriorityCount(d) > 0 <==> AnyIn(PriorityDomains, d)
  {
    if AnyIn(PriorityDomains, d) {
      var i :| 0 <= i < |PriorityDomains| && Contains(d, PriorityDomains[i]);
      FilterKeeps(PriorityDomains, Holds(d), PriorityDomains[i]);
    }
    if PriorityCount(d) > 0 {
      var pd := Filter(PriorityDomains, Holds(d))[0];
      FilterKeeps(PriorityDomains, Holds(d), pd);
    }
  }

  // ----- Scheduling -----

  function Groups(urls: seq<string>, host: string -> string): string -> seq<string> {
    d => Group(urls, host, d)
  }

  /** The list of scrape tasks: host by host in `order`, each host's URLs in input order. */
  function Schedule(order: seq<string>, urls: seq<string>, host: string -> string): seq<string> {
    FlatMap(order, Groups(urls, host))
  }

  function InDomains(order: seq<string>, host: string -> string): string -> bool {
    u => host(u) in order
  }

  /** No host occurs twice in the order. */
  ghost predicate Once(order: seq<string>) {
    forall d :: multiset(order)[d] <= 1
  }

  lemma {:induction false} DistinctOnce(xs: seq<string>)
    requires Distinct(xs)
    ensures Once(xs)
    decreases |xs|
  {
    if xs != [] {
      var init := xs[..|xs| - 1];
      assert xs == init + [xs[|xs| - 1]];
      assert Distinct(init);
      DistinctOnce(init);
      assert xs[|xs| - 1] !in init;
    }
  }

  /** Two disjoint host sets: their URLs together are the URLs of the union. */
  lemma FilterSplit(urls: seq<string>, host: string -> string, order: seq<string>, d: string)
    requires d !in order
    ensures multiset(Filter(urls, InDomains(order, host))) + multiset(Group(urls, host, d))
         == multiset(Filter(urls, InDomains(order + [d], host)))
  {
    forall k | 0 <= k < |urls|
      ensures InDomains(order + [d], host)(urls[k]) <==> InDomains(order, host)(urls[k]) || SameKey(host, d)(urls[k])
    {
      assert host(urls[k]) in order + [d] <==> host(urls[k]) in order || host(urls[k]) == d;
    }
    FilterDisjoint(urls, InDomains(order, host), SameKey(host, d), InDomains(order + [d], host));
  }

  /** The schedule holds exactly the URLs whose host is in the order, each as often as in the input. */
  lemma {:induction false} ScheduleMultiset(order: seq<string>, urls: seq<string>, host: string -> string)
    requires Once(order)
    ensures multiset(Schedule(order, urls, host)) == multiset(Filter(urls, InDomains(order, host)))
    decreases |order|
  {
    if order == [] {
      FilterNone(urls, InDomains(order, host));
    } else {
      var init := order[..|order| - 1];
      var d := order[|order| - 1];
      assert order == init + [d];
      assert multiset(order)[d] == multiset(init)[d] + 1;
      assert Once(init) by {
        forall x ensures multiset(init)[x] <= 1 {
          assert multiset(order)[x] >= multiset(init)[x];
        }
      }
      ScheduleMultiset(init, urls, host);
      FilterSplit(urls, host, init, d);
    }
  }

  /** Every input URL is scheduled exactly as often as it occurs in the batch. */
  lemma ScheduleIsPermutation(urls: seq<string>, host: string -> string)
    ensures multiset(Schedule(SortedDomains(urls, host), urls, host)) == multiset(urls)
  {
    var dedup := Dedup(DomainsOf(urls, host));
    var order := SortedDomains(urls, host);
    DistinctOnce(dedup);
    assert Once(order) by {
      assert multiset(order) == multiset(dedup);
    }
    ScheduleMultiset(order, urls, host);
    forall k | 0 <= k < |urls| ensures InDomains(order, host)(urls[k]) {
      assert DomainsOf(urls, host)[k] == host(urls[k]);
      assert host(urls[k]) in multiset(dedup);
    }
    FilterAll(urls, InDomains(order, host));
  }

  // ----- The pool -----

  /** `as_completed` yields every task once: `order` is a permutation of the scrape-task indices. */
  predicate CompletionOrder(order: seq<nat>, n: nat) {
    && |order| == n
    && (forall k :: 0 <= k < n ==> order[k] < n)
    && (forall i :: 0 <= i < n ==> i in order)
  }

  /** A result the pool keeps: returned without raising, with non-empty content. */
  predicate Kept(o: Attempt<ScrapeResult>) {
    o.Returned? && o.value.content != ""
  }

  /** The collected results, in completion order. */
  function Collected(outcomes: seq<Attempt<ScrapeResult>>, order: seq<nat>): (rs: seq<ScrapeResult>)
    requires forall k :: 0 <= k < |order| ==> order[k] < |outcomes|
    ensures |rs| <= |order|
    decreases |order|
  {
    if order == [] then []
    else
      var o := outcomes[order[|order| - 1]];
      Collected(outcomes, order[..|order| - 1]) + (if Kept(o) then [o.value] else [])
  }

  /** The collection loop: failed tasks and empty results are dropped. */
  method Collect(outcomes: seq<Attempt<ScrapeResult>>, order: seq<nat>) returns (results: seq<ScrapeResult>)
    requires CompletionOrder(order, |outcomes|)
    ensures results == Collected(outcomes, order)
    ensures |results| <= |outcomes|
    ensures forall r :: r in results ==> r.content != "" && Returned(r) in outcomes
    ensures forall k :: 0 <= k < |outcomes| && Kept(outcomes[k]) ==> outcomes[k].value in results
  {
    results := [];
    var k := 0;
    while k < |order|
      invariant 0 <= k <= |order|
      invariant results == Collected(outcomes, order[..k])
    {
      assert order[..k + 1][..k] == order[..k];
      var outcome := outcomes[order[k]];
      if outcome.Returned? && outcome.value.content != "" {
        results := results + [outcome.value];
      }
      k := k + 1;
    }
    assert order[..k] == order;
    CollectedMembers(outcomes, order);
    forall k | 0 <= k < |outcomes| && Kept(outcomes[k]) ensures outcomes[k].value in results {
      assert k in order;
      var j :| 0 <= j < |order| && order[j] == k;
    }
  }

  lemma {:induction false} CollectedMembers(outcomes: seq<Attempt<ScrapeResult>>, order: seq<nat>)
    requires forall k :: 0 <= k < |order| ==> order[k] < |outcomes|
    ensures forall r :: r in Collected(outcomes, order) ==>
      r.content != "" && exists k :: 0 <= k < |order| && outcomes[order[k]] == Returned(r)
    ensures forall k :: 0 <= k < |order| && Kept(outcomes[order[k]]) ==>
      outcomes[order[k]].value in Collected(outcomes, order)
    decreases |order|
  {
    if order != [] {
      var init := order[..|order| - 1];
      CollectedMembers(outcomes, init);
      forall k | 0 <= k < |init| ensures init[k] == order[k] { }
    }
  }

  /** The loop creating the scrape tasks: each host's group, host by host in `order`. */
  method BuildSchedule(order: seq<string>, groups: map<string, seq<string>>, urls: seq<string>,
                       host: string -> string)
    returns (scheduled: seq<string>)
    requires forall d :: d in order ==> d in groups
    requires forall d :: d in groups ==> groups[d] == Group(urls, host, d)
    ensures scheduled == Schedule(order, urls, host)
  {
    scheduled := [];
    var k := 0;
    while k < |order|
      invariant 0 <= k <= |order|
      invariant scheduled == Schedule(order[..k], urls, host)
    {
      assert order[..k + 1][..k] == order[..k];
      scheduled := scheduled + groups[order[k]];
      k := k + 1;
    }
    assert order[..k] == order;
  }

  /** The priority sort of the hosts and the list of scrape tasks built from it. */
  method OrderTasks(urls: seq<string>, host: string -> string, domains: seq<string>,
                    groups: map<string, seq<string>>)
    returns (order: seq<string>, scheduled: seq<string>)
    requires domains == Dedup(Map(urls, host))
    requires forall d :: d in groups <==> d in domains
    requires forall d :: d in groups ==> groups[d] == Filter(urls, SameKey(host, d))
    ensures order == SortedDomains(urls, host)
    ensures scheduled == Schedule(order, urls, host)
    ensures multiset(scheduled) == multiset(urls)
  {
    order := SortDesc(domains, Priority);
    forall d | d in order ensures d in groups {
      assert d in multiset(domains);
    }
    scheduled := BuildSchedule(order, groups, urls, host);
    ScheduleIsPermutation(urls, host);
  }

  /** Each scheduled task's outcome, by task index. */
  method RunTasks(scheduled: seq<string>, scrape: string -> Attempt<ScrapeResult>)
    returns (outcomes: seq<Attempt<ScrapeResult>>)
    ensures |outcomes| == |scheduled|
    ensures forall i :: 0 <= i < |scheduled| ==> outcomes[i] == scrape(scheduled[i])
  {
    outcomes := [];
    var k := 0;
    while k < |scheduled|
      invariant 0 <= k <= |scheduled|
      invariant |outcomes| == k
      invariant forall i :: 0 <= i < k ==> outcomes[i] == scrape(scheduled[i])
    {
      outcomes := outcomes + [scrape(scheduled[k])];
      k := k + 1;
    }
  }

  /** Running a permutation of the scrape tasks produces the outcome of every one, and only those. */
  lemma PermutedTasks<T, R>(xs: seq<T>, ys: seq<T>, f: T -> R, outs: seq<R>)
    requires multiset(ys) == multiset(xs)
    requires |outs| == |ys| && forall i :: 0 <= i < |ys| ==> outs[i] == f(ys[i])
    ensures forall o :: o in outs ==> exists x :: x in xs && f(x) == o
    ensures forall x :: x in xs ==> f(x) in outs
  {
    forall o | o in outs ensures exists x :: x in xs && f(x) == o {
      var i :| 0 <= i < |outs| && outs[i] == o;
      assert ys[i] in multiset(xs);
    }
    forall x | x in xs ensures f(x) in outs {
      assert x in multiset(ys);
      var i :| 0 <= i < |ys| && ys[i] == x;
      assert outs[i] == f(x);
    }
  }

  class ScraperWorkerPool {
    const maxWorkers: int
    const maxPerDomain: nat
    /** `domain_semaphores`: each host and the permit count its semaphore was created with. */
    var semaphores: map<string, nat>

    constructor (maxWorkers: int, maxPerDomain: nat)
      ensures this.maxWorkers == maxWorkers && this.maxPerDomain == maxPerDomain
      ensures semaphores == map[]
    {
      this.maxWorkers := maxWorkers;
      this.maxPerDomain := maxPerDomain;
      semaphores := map[];
    }

    /** The semaphore loop: a semaphore for every new host, existing ones kept. */
    method AddSemaphores(domains: seq<string>)
      modifies this
      ensures forall d :: d in semaphores <==> d in old(semaphores) || d in domains
      ensures forall d :: d in old(semaphores) ==> semaphores[d] == old(semaphores)[d]
      ensures forall d :: d in semaphores && d !in old(semaphores) ==> semaphores[d] == maxPerDomain
    {
      var k := 0;
      while k < |domains|
        invariant 0 <= k <= |domains|
        invariant forall d :: d in semaphores <==> d in old(semaphores) || d in domains[..k]
        invariant forall d :: d in old(semaphores) ==> semaphores[d] == old(semaphores)[d]
        invariant forall d :: d in semaphores && d !in old(semaphores) ==> semaphores[d] == maxPerDomain
      {
        assert domains[..k + 1] == domains[..k] + [domains[k]];
        if domains[k] !in semaphores {
          semaphores := semaphores[domains[k] := maxPerDomain];
        }
        k := k + 1;
      }
      assert domains[..k] == domains;
    }

    /** Grouping, semaphores, priority order and the scrape tasks of `scrape_urls`. */
    method Plan(urls: seq<string>) returns (order: seq<string>, scheduled: seq<string>)
      modifies this
      ensures forall d :: d in semaphores <==> d in old(semaphores) || d in Dedup(DomainsOf(urls, Host))
      ensures forall d :: d in old(semaphores) ==> semaphores[d] == old(semaphores)[d]
      ensures forall d :: d in semaphores && d !in old(semaphores) ==> semaphores[d] == maxPerDomain
      ensures order == SortedDomains(urls, Host)
      ensures scheduled == Schedule(order, urls, Host)
      ensures multiset(scheduled) == multiset(urls)
    {
      var domains, groups := GroupBy(urls, Host);
      AddSemaphores(domains);
      order, scheduled := OrderTasks(urls, Host, domains, groups);
    }

    /**
     * `scrape_urls(urls, scrape_func)`: `scrape` gives each task's outcome
     * and `completion` the order in which the scrape tasks finish.
     */
    method ScrapeUrls(urls: seq<string>, scrape: string -> Attempt<ScrapeResult>, completion: seq<nat>)
      returns (results: seq<ScrapeResult>)
      requires CompletionOrder(completion, |urls|)
      modifies this
      ensures forall d :: d in semaphores <==> d in old(semaphores) || d in Dedup(DomainsOf(urls, Host))
      ensures forall d :: d in old(semaphores) ==> semaphores[d] == old(semaphores)[d]
      ensures forall d :: d in semaphores && d !in old(semaphores) ==> semaphores[d] == maxPerDomain
      ensures |results| <= |urls|
      ensures forall r :: r in results ==> r.content != "" && exists u :: u in urls && scrape(u) == Returned(r)
      ensures forall u :: u in urls && Kept(scrape(u)) ==> scrape(u).value in results
    {
      var order, scheduled := Plan(urls);
      assert |scheduled| == |urls| by {
        assert |multiset(scheduled)| == |multiset(urls)|;
      }
      var outcomes := RunTasks(scheduled, scrape);
      results := Collect(outcomes, completion);
      PermutedTasks(urls, scheduled, scrape, outcomes);
      forall u | u in urls && Kept(scrape(u)) ensures scrape(u).value in results {
        var i :| 0 <= i < |outcomes| && outcomes[i] == scrape(u);
      }
    }
  }
}
