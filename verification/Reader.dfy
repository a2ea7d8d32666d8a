/**
 The feed reader: its options, the outcome of each fetch, and what `Parse` makes of the results
 in the order in which they arrive.
 */
module Reader {
  import opened Base
  import opened FeedItems
  import opened Sequences
  import opened ParseSchedule

  /******* Options *******/

  datatype ReaderOption = ConcurrencyLimit(limit: int) | MaxBodySize(size: int)

  datatype ReaderConfig = ReaderConfig(concurrencyLimit: int, maxBodySize: int)

  const DEFAULTS := ReaderConfig(10, 10 * 1024 * 1024)

  /** The last positive limit among the options, or the default. */
  function LimitOf(opts: seq<ReaderOption>): int {
    if opts == [] then DEFAULTS.concurrencyLimit
    else
      var o := opts[|opts| - 1];
      if o.ConcurrencyLimit? && o.limit > 0 then o.limit else LimitOf(opts[..|opts| - 1])
  }

  function SizeOf(opts: seq<ReaderOption>): int {
    if opts == [] then DEFAULTS.maxBodySize
    else
      var o := opts[|opts| - 1];
      if o.MaxBodySize? && o.size > 0 then o.size else SizeOf(opts[..|opts| - 1])
  }

  lemma {:induction false} LastLimitCounts(opts: seq<ReaderOption>)
    ensures if forall i :: 0 <= i < |opts| && opts[i].ConcurrencyLimit? ==> opts[i].limit <= 0
            then LimitOf(opts) == 10
            else LimitOf(opts) > 0
                 && exists i :: 0 <= i < |opts| && opts[i] == ConcurrencyLimit(LimitOf(opts))
                                && forall j :: i < j < |opts| && opts[j].ConcurrencyLimit? ==> opts[j].limit <= 0
  {
    if opts != [] {
      var n := |opts| - 1;
      LastLimitCounts(opts[..n]);
      if opts[n].ConcurrencyLimit? && opts[n].limit > 0 {
        assert opts[n] == ConcurrencyLimit(LimitOf(opts));
      } else if i :| 0 <= i < n && opts[..n][i] == ConcurrencyLimit(LimitOf(opts[..n]))
                     && forall j :: i < j < n && opts[..n][j].ConcurrencyLimit? ==> opts[..n][j].limit <= 0 {
        assert opts[i] == ConcurrencyLimit(LimitOf(opts));
        assert forall j :: i < j < n ==> opts[j] == opts[..n][j];
      }
    }
  }

  lemma {:induction false} LastSizeCounts(opts: seq<ReaderOption>)
    ensures if forall i :: 0 <= i < |opts| && opts[i].MaxBodySize? ==> opts[i].size <= 0
            then SizeOf(opts) == 10 * 1024 * 1024
            else SizeOf(opts) > 0
                 && exists i :: 0 <= i < |opts| && opts[i] == MaxBodySize(SizeOf(opts))
                                && forall j :: i < j < |opts| && opts[j].MaxBodySize? ==> opts[j].size <= 0
  {
    if opts != [] {
      var n := |opts| - 1;
      LastSizeCounts(opts[..n]);
      if opts[n].MaxBodySize? && opts[n].size > 0 {
        assert opts[n] == MaxBodySize(SizeOf(opts));
      } else if i :| 0 <= i < n && opts[..n][i] == MaxBodySize(SizeOf(opts[..n]))
                     && forall j :: i < j < n && opts[..n][j].MaxBodySize? ==> opts[..n][j].size <= 0 {
        assert opts[i] == MaxBodySize(SizeOf(opts));
        assert forall j :: i < j < n ==> opts[j] == opts[..n][j];
      }
    }
  }

  /** Applies the options in order: each limit is that of the last option that gives a positive one, or ten fetches at
      once and ten megabytes. So whatever the options, every batch makes progress. */
  method New(opts: seq<ReaderOption>) returns (cfg: ReaderConfig)
    ensures cfg.concurrencyLimit > 0 && cfg.maxBodySize > 0
    ensures if forall i :: 0 <= i < |opts| && opts[i].ConcurrencyLimit? ==> opts[i].limit <= 0
            then cfg.concurrencyLimit == 10
            else cfg.concurrencyLimit > 0
                 && exists i :: 0 <= i < |opts| && opts[i] == ConcurrencyLimit(cfg.concurrencyLimit)
                                && forall j :: i < j < |opts| && opts[j].ConcurrencyLimit? ==> opts[j].limit <= 0
    ensures if forall i :: 0 <= i < |opts| && opts[i].MaxBodySize? ==> opts[i].size <= 0
            then cfg.maxBodySize == 10 * 1024 * 1024
            else cfg.maxBodySize > 0
                 && exists i :: 0 <= i < |opts| && opts[i] == MaxBodySize(cfg.maxBodySize)
                                && forall j :: i < j < |opts| && opts[j].MaxBodySize? ==> opts[j].size <= 0
  {
    cfg := DEFAULTS;
    for i := 0 to |opts|
      invariant cfg == ReaderConfig(LimitOf(opts[..i]), SizeOf(opts[..i]))
      invariant cfg.concurrencyLimit > 0 && cfg.maxBodySize > 0
    {
      assert opts[..i + 1][..i] == opts[..i];
      match opts[i]
      case ConcurrencyLimit(limit) =>
        if limit > 0 {
          cfg := cfg.(concurrencyLimit := limit);
        }
      case MaxBodySize(size) =>
        if size > 0 {
          cfg := cfg.(maxBodySize := size);
        }
    }
    assert opts[..|opts|] == opts;
    LastLimitCounts(opts);
    LastSizeCounts(opts);
  }

  /******* Errors *******/

  datatype URLError = URLError(url: string, err: string)

  /** The text of a URL error. */
  function ErrorText(e: URLError): string {
    e.url + ": " + e.err
  }

  function ErrorsFor(errs: seq<URLError>, url: string): seq<URLError> {
    if errs == [] then []
    else
      var n := |errs| - 1;
      ErrorsFor(errs[..n], url) + if errs[n].url == url then [errs[n]] else []
  }

  /** The errors of a URL, each in its place. */
  lemma {:induction false} ErrorsForByPosition(errs: seq<URLError>, url: string, blocks: seq<seq<URLError>>)
    requires |blocks| == |errs|
    requires forall i :: 0 <= i < |errs| ==> blocks[i] == if errs[i].url == url then [errs[i]] else []
    ensures LaidOut(ErrorsFor(errs, url), blocks)
  {
    if errs != [] {
      var n := |errs| - 1;
      ErrorsForByPosition(errs[..n], url, blocks[..n]);
      LaidOutAppend(ErrorsFor(errs[..n], url), blocks[..n], blocks[n]);
      assert blocks == blocks[..n] + [blocks[n]];
    }
  }

  /** Groups the errors of a batch: a group for each URL that failed, holding its errors in order. */
  method ByURL(errs: seq<URLError>) returns (grouped: map<string, seq<URLError>>)
    ensures forall u :: ErrorsFor(errs, u) == if u in grouped then grouped[u] else []
    ensures forall u :: u in grouped ==> grouped[u] != []
  {
    grouped := map[];
    for i := 0 to |errs|
      invariant forall u :: ErrorsFor(errs[..i], u) == if u in grouped then grouped[u] else []
      invariant forall u :: u in grouped ==> grouped[u] != []
    {
      assert errs[..i + 1][..i] == errs[..i];
      var u := errs[i].url;
      grouped := grouped[u := (if u in grouped then grouped[u] else []) + [errs[i]]];
    }
    assert errs[..|errs|] == errs;
  }

  /******* Results *******/

  datatype Outcome = Fetched(items: seq<RssItem>) | FetchFailed(err: string)

  /** What one goroutine sends. */
  datatype FetchResult = FetchResult(url: string, outcome: Outcome)

  function ItemsOf(r: FetchResult): seq<RssItem> {
    if r.outcome.Fetched? then r.outcome.items else []
  }

  function ErrorsOf(r: FetchResult): seq<URLError> {
    if r.outcome.FetchFailed? then [URLError(r.url, r.outcome.err)] else []
  }

  function AllItems(rs: seq<FetchResult>): seq<RssItem> {
    FlatMap(ItemsOf, rs)
  }

  function AllErrors(rs: seq<FetchResult>): seq<URLError> {
    FlatMap(ErrorsOf, rs)
  }

  /** Every result in its place: its items among the items, or its error, for its own URL, among the errors. */
  lemma CollectedByPosition(rs: seq<FetchResult>, items: seq<seq<RssItem>>, errs: seq<seq<URLError>>)
    requires |items| == |errs| == |rs|
    requires forall i :: 0 <= i < |rs| ==>
               && items[i] == (if rs[i].outcome.Fetched? then rs[i].outcome.items else [])
               && errs[i] == if rs[i].outcome.Fetched? then [] else [URLError(rs[i].url, rs[i].outcome.err)]
    ensures LaidOut(AllItems(rs), items) && LaidOut(AllErrors(rs), errs)
  {
    FlatMapLaidOut(ItemsOf, rs, items);
    FlatMapLaidOut(ErrorsOf, rs, errs);
  }

  /** What the parsers guarantee: every item carries the URL it was fetched from. */
  predicate Tagged(rs: seq<FetchResult>) {
    forall r :: r in rs && r.outcome.Fetched? ==> forall x :: x in r.outcome.items ==> x.sourceURL == r.url
  }

  /** The collecting loop, deduplication and sorting. No error value is returned when no URL failed. */
  method Collect(received: seq<FetchResult>) returns (items: seq<RssItem>, errs: Option<seq<URLError>>)
    ensures Sorts(Dedup(AllItems(received)), items)
    ensures errs == if AllErrors(received) == [] then None else Some(AllErrors(received))
  {
    var allItems: seq<RssItem> := [];
    var urlErrs: seq<URLError> := [];
    for i := 0 to |received|
      invariant allItems == AllItems(received[..i])
      invariant urlErrs == AllErrors(received[..i])
    {
      var res := received[i];
      assert received[..i + 1] == received[..i] + [res];
      FlatMapConcat(ItemsOf, received[..i], [res]);
      FlatMapConcat(ErrorsOf, received[..i], [res]);
      assert [res][1..] == [];
      if res.outcome.FetchFailed? {
        urlErrs := urlErrs + [URLError(res.url, res.outcome.err)];
      } else {
        allItems := allItems + res.outcome.items;
      }
    }
    assert received[..|received|] == received;
    var unique := Deduplicate(allItems);
    var a := new RssItem[|unique|](i requires 0 <= i < |unique| => unique[i]);
    assert a[..] == unique;
    SortItems(a);
    items := a[..];
    errs := if |urlErrs| == 0 then None else Some(urlErrs);
  }

  /******* Schedules *******/

  const CANCELLED := "context canceled"

  /** The result goroutine `i` sends, given what its fetch would yield and whether it gave up on the cancelled
      context. */
  function ResultOf(urls: seq<string>, fetched: seq<Outcome>, gaveUp: set<nat>): nat -> FetchResult {
    (i: nat) =>
      if i < |urls| && i < |fetched| && i !in gaveUp then FetchResult(urls[i], fetched[i])
      else FetchResult(if i < |urls| then urls[i] else "", FetchFailed(CANCELLED))
  }

  /** The results in the order in which a schedule collected them. */
  function Received(urls: seq<string>, fetched: seq<Outcome>, s: State): seq<FetchResult> {
    Map(ResultOf(urls, fetched, s.gaveUp), s.drained)
  }

  /** A result of `Parse` for a batch: the outcome of one complete schedule. */
  ghost predicate ParseYields(limit: nat, urls: seq<string>, fetched: seq<Outcome>, gaveUp: set<nat>,
          items: seq<RssItem>, errs: seq<URLError>) {
    exists s :: Reachable(limit, |urls|, s) && Finished(s) && s.gaveUp == gaveUp
      && Sorts(Dedup(AllItems(Received(urls, fetched, s))), items) && errs == AllErrors(Received(urls, fetched, s))
  }

  /** Any complete schedule receives the outcome of every occurrence exactly once. */
  lemma ReceivesAll(limit: nat, urls: seq<string>, fetched: seq<Outcome>, s: State)
    requires Reachable(limit, |urls|, s) && Finished(s)
    ensures multiset(Received(urls, fetched, s)) == multiset(Map(ResultOf(urls, fetched, s.gaveUp), Indices(|urls|)))
  {
    CollectsEveryResultOnce(limit, |urls|, s);
    PermutationMap(ResultOf(urls, fetched, s.gaveUp), s.drained, Indices(|urls|));
  }

  /** What is received at each position is what the sender's own URL gave: its outcome, or an error if the sender gave
      up because the context was cancelled. */
  lemma ReceivedByPosition(limit: nat, urls: seq<string>, fetched: seq<Outcome>, s: State, k: nat)
    requires Reachable(limit, |urls|, s) && Finished(s) && |fetched| == |urls| && k < |urls|
    ensures |Received(urls, fetched, s)| == |s.drained| == |urls|
    ensures var i, r := s.drained[k], Received(urls, fetched, s)[k];
            && i < |urls| && r.url == urls[i]
            && if i in s.gaveUp then r.outcome == FetchFailed("context canceled") else r.outcome == fetched[i]
  {
    CollectsEveryResultOnce(limit, |urls|, s);
    PermutationLength(s.drained, Indices(|urls|));
    PermutationMember(s.drained, Indices(|urls|));
    MapAt(ResultOf(urls, fetched, s.gaveUp), s.drained);
    assert s.drained[k] in s.drained;
  }

  /** Results received in another order give the same errors, as many items, the same links and the same linkless
      items. */
  lemma OrderDoesNotMatter(xs: seq<FetchResult>, ys: seq<FetchResult>, items: seq<RssItem>, items': seq<RssItem>)
    requires multiset(xs) == multiset(ys)
    requires Sorts(Dedup(AllItems(xs)), items) && Sorts(Dedup(AllItems(ys)), items')
    ensures multiset(AllErrors(xs)) == multiset(AllErrors(ys))
    ensures |items| == |items'| && Links(items) == Links(items')
        && multiset(Linkless(items)) == multiset(Linkless(items'))
  {
    PermutationFlatMap(ItemsOf, xs, ys);
    PermutationFlatMap(ErrorsOf, xs, ys);
    DedupKeeps(AllItems(xs));
    DedupKeeps(AllItems(ys));
    SamePermuted(AllItems(xs), AllItems(ys));
    SamePermuted(Dedup(AllItems(xs)), items);
    SamePermuted(Dedup(AllItems(ys)), items');
    PermutationLength(Linkless(AllItems(xs)), Linkless(AllItems(ys)));
  }

  lemma SamePermuted(a: seq<RssItem>, b: seq<RssItem>)
    requires multiset(a) == multiset(b)
    ensures |a| == |b| && Links(a) == Links(b) && multiset(Linkless(a)) == multiset(Linkless(b))
  {
    PermutationLength(a, b);
    LinksAreMembers(a);
    LinksAreMembers(b);
    PermutationMember(a, b);
    LinklessCounts(a);
    LinklessCounts(b);
  }

  lemma LinksAreMembers(a: seq<RssItem>)
    ensures forall l :: l in Links(a) <==> exists x :: x in a && x.link == l && l != ""
  {
    forall l | exists x :: x in a && x.link == l && l != ""
      ensures l in Links(a)
    {
      var x :| x in a && x.link == l && l != "";
      var i :| 0 <= i < |a| && a[i] == x;
      assert a[i].link != "";
    }
  }

  lemma {:induction false} LinklessCounts(a: seq<RssItem>)
    ensures forall x :: multiset(Linkless(a))[x] == if x.link == "" then multiset(a)[x] else 0
  {
    if a != [] {
      var n := |a| - 1;
      LinklessCounts(a[..n]);
      assert a == a[..n] + [a[n]];
    }
  }

  /** Schedule independence: for one batch and one set of goroutines that gave up, any two complete schedules
      return the same errors, equally many items, the same links and the same linkless items, although the
      surviving duplicates may differ. */
  lemma ParseIsScheduleIndependent(limit: nat, limit': nat, urls: seq<string>, fetched: seq<Outcome>, gaveUp: set<nat>,
                                   items: seq<RssItem>, errs: seq<URLError>, items': seq<RssItem>, errs': seq<URLError>)
    requires ParseYields(limit, urls, fetched, gaveUp, items, errs)
    requires ParseYields(limit', urls, fetched, gaveUp, items', errs')
    ensures multiset(errs) == multiset(errs')
    ensures |items| == |items'| && Links(items) == Links(items')
        && multiset(Linkless(items)) == multiset(Linkless(items'))
  {
    var s :| Reachable(limit, |urls|, s) && Finished(s) && s.gaveUp == gaveUp
      && Sorts(Dedup(AllItems(Received(urls, fetched, s))), items) && errs == AllErrors(Received(urls, fetched, s));
    var t :| Reachable(limit', |urls|, t) && Finished(t) && t.gaveUp == gaveUp
      && Sorts(Dedup(AllItems(Received(urls, fetched, t))), items') && errs' == AllErrors(Received(urls, fetched, t));
    ReceivesAll(limit, urls, fetched, s);
    ReceivesAll(limit', urls, fetched, t);
    OrderDoesNotMatter(Received(urls, fetched, s), Received(urls, fetched, t), items, items');
  }
}
