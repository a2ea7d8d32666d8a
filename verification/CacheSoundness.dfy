/**
 What the pipeline's verdicts and cache entries mean in terms of the feeds: the reader answers for every
 occurrence of a URL, the status says whether anything was found, and a cache entry never says more about a
 URL than fetching it alone would have.
 */
module CacheSoundness {
  import opened Base
  import opened FeedItems
  import opened JobStore
  import opened ParseSchedule
  import opened Pipeline
  import opened Reader
  import opened Sequences
  import opened UrlCache

  /** The reader's contract: one result for every occurrence in the batch, received in some order. */
  ghost predicate Answers(misses: seq<string>, results: seq<FetchResult>, received: seq<FetchResult>, answer: Answer) {
    && |results| == |misses|
    && (forall i :: 0 <= i < |misses| ==> results[i].url == misses[i])
    && Tagged(results)
    && multiset(received) == multiset(results)
    && Sorts(Dedup(AllItems(received)), answer.items)
    && answer.err == if AllErrors(received) == [] then NoError else PerURL(AllErrors(received))
  }

  /** Every complete schedule of `Parse` meets the contract. */
  lemma SchedulesAnswer(limit: nat, urls: seq<string>, fetched: seq<Outcome>, s: State, items: seq<RssItem>)
    returns (results: seq<FetchResult>)
    requires Reachable(limit, |urls|, s) && Finished(s) && Sorts(Dedup(AllItems(Received(urls, fetched, s))), items)
    requires Tagged(Received(urls, fetched, s))
    ensures var rs := Received(urls, fetched, s);
            Answers(urls, results, rs, Answer(items, if AllErrors(rs) == [] then NoError else PerURL(AllErrors(rs))))
  {
    var f := ResultOf(urls, fetched, s.gaveUp);
    results := Map(f, Indices(|urls|));
    MapAt(f, Indices(|urls|));
    ReceivesAll(limit, urls, fetched, s);
    PermutationMember(Received(urls, fetched, s), results);
  }

  /******* Errors and status *******/

  predicate SomeError(errs: seq<URLError>, u: string) {
    exists e :: e in errs && e.url == u
  }

  predicate SomeFailure(rs: seq<FetchResult>, u: string) {
    exists r :: r in rs && r.url == u && r.outcome.FetchFailed?
  }

  lemma {:induction false} ErrorsAreFailures(rs: seq<FetchResult>)
    ensures |AllErrors(rs)| <= |rs|
    ensures |AllErrors(rs)| == |rs| <==> forall r :: r in rs ==> r.outcome.FetchFailed?
    ensures forall u :: SomeError(AllErrors(rs), u) <==> SomeFailure(rs, u)
  {
    if rs != [] {
      ErrorsAreFailures(rs[1..]);
      assert rs == [rs[0]] + rs[1..];
      forall u
        ensures SomeError(AllErrors(rs), u) <==> SomeFailure(rs, u)
      {
        if e :| e in AllErrors(rs) && e.url == u {
          assert e in ErrorsOf(rs[0]) || e in AllErrors(rs[1..]);
          assert e in AllErrors(rs[1..]) ==> SomeError(AllErrors(rs[1..]), u);
        }
        if r :| r in rs && r.url == u && r.outcome.FetchFailed? {
          if r in rs[1..] {
            assert SomeFailure(rs[1..], u);
            var e :| e in AllErrors(rs[1..]) && e.url == u;
            assert e in AllErrors(rs);
          } else {
            assert ErrorsOf(r)[0] in AllErrors(rs);
          }
        }
      }
    }
  }

  /** A batch reports one error per failed occurrence, and a URL counts as failed when any of its occurrences failed. */
  lemma ReportedErrors(misses: seq<string>, results: seq<FetchResult>, received: seq<FetchResult>, answer: Answer)
    requires Answers(misses, results, received, answer)
    ensures var errs := Reported(misses, answer.err);
            && |errs| <= |misses|
            && (|errs| == |misses| <==> forall r :: r in results ==> r.outcome.FetchFailed?)
            && forall u :: Failed(u, errs) <==> SomeFailure(results, u)
  {
    var all := AllErrors(received);
    ErrorsAreFailures(received);
    PermutationMember(received, results);
    PermutationLength(received, results);
    MapAt(ToURLErr, all);
    var errs := Reported(misses, answer.err);
    assert errs == Map(ToURLErr, all);
    forall u
      ensures Failed(u, errs) <==> SomeFailure(results, u)
    {
      assert SomeError(all, u) <==> SomeFailure(received, u);
      if Failed(u, errs) {
        var i :| 0 <= i < |errs| && errs[i].url == u;
        assert all[i] in all;
      }
      if e :| e in all && e.url == u {
        var i :| 0 <= i < |all| && all[i] == e;
        assert errs[i].url == u;
      }
    }
  }

  lemma {:induction false} NoResultsNoItems(rs: seq<FetchResult>)
    requires forall r :: r in rs ==> r.outcome.FetchFailed?
    ensures AllItems(rs) == []
  {
    if rs != [] {
      assert rs[0] in rs && forall r :: r in rs[1..] ==> r in rs;
      NoResultsNoItems(rs[1..]);
    }
  }

  predicate IsHit(look: CacheRead) {
    look.Some?
  }

  lemma {:induction false} HitsAndMisses(urls: seq<string>, shown: seq<CacheRead>)
    requires |shown| == |urls|
    ensures Tally(IsHit, shown) + |Misses(urls, shown)| == |urls|
    ensures Tally(IsHit, shown) == 0 ==> Hits(shown) == [] && Misses(urls, shown) == urls
  {
    if urls != [] {
      var n := |urls| - 1;
      HitsAndMisses(urls[..n], shown[..n]);
      TallyAppend(IsHit, shown[..n], shown[n]);
      assert urls == urls[..n] + [urls[n]] && shown == shown[..n] + [shown[n]];
    }
  }

  lemma {:induction false} NoHits(shown: seq<CacheRead>)
    ensures Tally(IsHit, shown) == 0 <==> forall look :: look in shown ==> look.None?
  {
    if shown != [] {
      NoHits(shown[1..]);
      assert forall look :: look in shown <==> look == shown[0] || look in shown[1..];
      assert Tally(IsHit, shown) == One(IsHit(shown[0])) + Tally(IsHit, shown[1..]);
      assert IsHit(shown[0]) <==> !shown[0].None?;
    }
  }

  /** A batch fails exactly when it is not empty, no read of the cache was a hit and every fetch failed;
      so the emptiness of the items, which the code tests as well, is implied by its other tests. */
  lemma StatusMeaning(
    urls: seq<string>, shown: seq<CacheRead>, reader: seq<string> -> Answer, results: seq<FetchResult>,
      received: seq<FetchResult>
  )
    requires |shown| == |urls|
    requires var misses := Misses(urls, shown); Answers(misses, results, received, Asked(reader, misses))
    ensures Judge(urls, shown, reader).status == "failed" <==>
            urls != [] && (forall look :: look in shown ==> look.None?)
              && (forall r :: r in results ==> r.outcome.FetchFailed?)
    ensures Judge(urls, shown, reader).status == "failed"
        <==> urls != [] && |Judge(urls, shown, reader).errors| >= |urls|
  {
    var misses := Misses(urls, shown);
    var answer := Asked(reader, misses);
    var errs := Reported(misses, answer.err);
    HitsAndMisses(urls, shown);
    NoHits(shown);
    ReportedErrors(misses, results, received, answer);
    if |errs| >= |urls| {
      PermutationMember(received, results);
      NoResultsNoItems(received);
      PermutationLength(Dedup(AllItems(received)), answer.items);
      assert answer.items == [] && Converted(answer.items) == [];
    }
  }

  /** Every occurrence of a URL is a hit, a reported error, or a successful fetch. */
  lemma Accounting(
    urls: seq<string>, shown: seq<CacheRead>, reader: seq<string> -> Answer, results: seq<FetchResult>,
      received: seq<FetchResult>
  )
    requires |shown| == |urls|
    requires var misses := Misses(urls, shown); Answers(misses, results, received, Asked(reader, misses))
    ensures |urls| == Tally(IsHit, shown) + |Judge(urls, shown, reader).errors| + Successes(results)
  {
    var misses := Misses(urls, shown);
    HitsAndMisses(urls, shown);
    PermutationFlatMap(ErrorsOf, received, results);
    PermutationLength(AllErrors(received), AllErrors(results));
    SuccessesAre(results);
    MapAt(ToURLErr, AllErrors(received));
  }

  function Successes(rs: seq<FetchResult>): nat {
    if rs == [] then 0 else (if rs[0].outcome.Fetched? then 1 else 0) + Successes(rs[1..])
  }

  lemma {:induction false} SuccessesAre(rs: seq<FetchResult>)
    ensures |AllErrors(rs)| + Successes(rs) == |rs|
  {
    if rs != [] {
      SuccessesAre(rs[1..]);
    }
  }

  /******* What a hydrated entry says *******/

  lemma {:induction false} OfSourceMembers(items: seq<StoredItem>, u: string, y: StoredItem)
    ensures y in OfSource(items, u) <==> y in items && y.sourceURL == u
  {
    if items != [] {
      var n := |items| - 1;
      OfSourceMembers(items[..n], u, y);
      assert items == items[..n] + [items[n]];
    }
  }

  lemma ConvertedMembers(items: seq<RssItem>, y: StoredItem)
    ensures y in Converted(items) <==> exists x :: x in items && Convert(x) == y
  {
    MapAt(Convert, items);
    if x :| x in items && Convert(x) == y {
      var i :| 0 <= i < |items| && items[i] == x;
      assert Converted(items)[i] == y;
    }
  }

  lemma {:induction false} AllItemsMembers(rs: seq<FetchResult>, x: RssItem)
    ensures x in AllItems(rs) <==> exists r :: r in rs && x in ItemsOf(r)
  {
    if rs != [] {
      AllItemsMembers(rs[1..], x);
      assert rs == [rs[0]] + rs[1..];
      if r :| r in rs && x in ItemsOf(r) {
        assert r == rs[0] || r in rs[1..];
      }
    }
  }

  lemma {:induction false} FirstConcat(a: seq<RssItem>, b: seq<RssItem>, link: string)
    ensures First(a + b, link) == if First(a, link).Some? then First(a, link) else First(b, link)
  {
    if a == [] {
      assert a + b == b;
    } else {
      assert (a + b)[0] == a[0] && (a + b)[1..] == a[1..] + b;
      FirstConcat(a[1..], b, link);
    }
  }

  /** The first item with a link in a batch is the first one in some result, and in every earlier one there is none. */
  lemma {:induction false} FirstOfBatch(rs: seq<FetchResult>, link: string)
    ensures First(AllItems(rs), link).Some? ==>
            exists r :: r in rs && First(ItemsOf(r), link) == First(AllItems(rs), link)
    ensures First(AllItems(rs), link).None? ==> forall r :: r in rs ==> First(ItemsOf(r), link).None?
  {
    if rs != [] {
      FirstConcat(ItemsOf(rs[0]), AllItems(rs[1..]), link);
      FirstOfBatch(rs[1..], link);
      assert rs == [rs[0]] + rs[1..];
      if First(AllItems(rs), link).Some? && First(ItemsOf(rs[0]), link).None? {
        var r :| r in rs[1..] && First(ItemsOf(r), link) == First(AllItems(rs[1..]), link);
        assert r in rs;
      } else if First(AllItems(rs), link).Some? {
        assert rs[0] in rs;
      }
    }
  }

  /** The results of one URL's occurrences in the batch, in the order of arrival. */
  function Own(rs: seq<FetchResult>, u: string): seq<FetchResult> {
    if rs == [] then [] else (if rs[0].url == u then [rs[0]] else []) + Own(rs[1..], u)
  }

  /** What those occurrences gave: the URL's feed, once for each occurrence that was fetched. */
  function OwnFeed(rs: seq<FetchResult>, u: string): seq<RssItem> {
    AllItems(Own(rs, u))
  }

  /** Another URL of the batch gave an item with a link of this one's. */
  predicate Shared(rs: seq<FetchResult>, u: string) {
    exists r :: r in rs && r.url != u && Links(ItemsOf(r)) * Links(OwnFeed(rs, u)) != {}
  }

  lemma {:induction false} OwnMembers(rs: seq<FetchResult>, u: string)
    ensures forall r :: r in Own(rs, u) <==> r in rs && r.url == u
  {
    if rs != [] {
      OwnMembers(rs[1..], u);
      assert forall r :: r in rs <==> r == rs[0] || r in rs[1..];
    }
  }

  lemma OwnFeedMembers(rs: seq<FetchResult>, u: string, x: RssItem)
    requires Tagged(rs)
    ensures x in OwnFeed(rs, u) <==> x in AllItems(rs) && x.sourceURL == u
  {
    OwnMembers(rs, u);
    AllItemsMembers(rs, x);
    AllItemsMembers(Own(rs, u), x);
  }

  /** The first item of a batch with a link, if it is one of this URL, is the first of the URL's own with it. */
  lemma {:induction false} FirstIsOwn(rs: seq<FetchResult>, u: string, l: string)
    requires Tagged(rs) && l != ""
    requires First(AllItems(rs), l).Some? && First(AllItems(rs), l).value.sourceURL == u
    ensures First(OwnFeed(rs, u), l) == First(AllItems(rs), l)
  {
    var r, rest := rs[0], rs[1..];
    assert forall r :: r in rest ==> r in rs;
    assert r in rs;
    FirstConcat(ItemsOf(r), AllItems(rest), l);
    FirstExists(ItemsOf(r), l);
    if First(ItemsOf(r), l).None? {
      FirstIsOwn(rest, u, l);
    }
    if r.url == u {
      assert Own(rs, u)[0] == r && Own(rs, u)[1..] == Own(rest, u);
      FirstConcat(ItemsOf(r), OwnFeed(rest, u), l);
    } else {
      assert Own(rs, u) == Own(rest, u);
    }
  }

  /** An item of a URL that survives the whole batch survives among the URL's own. */
  lemma SurvivorIsOwn(rs: seq<FetchResult>, u: string, x: RssItem)
    requires Tagged(rs) && x in Dedup(AllItems(rs)) && x.sourceURL == u
    ensures x in Dedup(OwnFeed(rs, u))
  {
    DedupMembers(AllItems(rs), x);
    DedupMembers(OwnFeed(rs, u), x);
    OwnFeedMembers(rs, u, x);
    if x.link != "" {
      FirstIsOwn(rs, u, x.link);
    }
  }

  /** An item that survives among the URL's own survives the whole batch exactly if no other URL's item with its
      link came first. */
  lemma OwnSurvivesExactly(rs: seq<FetchResult>, u: string, x: RssItem)
    requires Tagged(rs) && x in Dedup(OwnFeed(rs, u))
    ensures x.sourceURL == u
    ensures x in Dedup(AllItems(rs)) <==>
            x.link == "" || (First(AllItems(rs), x.link).Some? && First(AllItems(rs), x.link).value.sourceURL == u)
  {
    DedupMembers(AllItems(rs), x);
    DedupMembers(OwnFeed(rs, u), x);
    OwnFeedMembers(rs, u, x);
    if x.link != "" {
      FirstExists(AllItems(rs), x.link);
      if First(AllItems(rs), x.link).Some? && First(AllItems(rs), x.link).value.sourceURL == u {
        FirstIsOwn(rs, u, x.link);
      }
    }
  }

  lemma LinksMember(items: seq<RssItem>, x: RssItem)
    requires x in items && x.link != ""
    ensures x.link in Links(items)
  {
    var i :| 0 <= i < |items| && items[i] == x;
    assert items[i].link == x.link;
  }

  /** If nothing is shared, the first item with a link of the URL's own is one of them. */
  lemma UnsharedComesFirst(rs: seq<FetchResult>, u: string, l: string)
    requires Tagged(rs) && !Shared(rs, u) && l in Links(OwnFeed(rs, u))
    ensures First(AllItems(rs), l).Some? && First(AllItems(rs), l).value.sourceURL == u
  {
    FirstExists(OwnFeed(rs, u), l);
    var x := First(OwnFeed(rs, u), l).value;
    OwnFeedMembers(rs, u, x);
    LinksMember(AllItems(rs), x);
    FirstExists(AllItems(rs), l);
    FirstOfBatch(rs, l);
    var r :| r in rs && First(ItemsOf(r), l) == First(AllItems(rs), l);
    FirstExists(ItemsOf(r), l);
    assert r.url != u ==> l !in Links(ItemsOf(r)) * Links(OwnFeed(rs, u));
  }

  /** The entry of a URL, as a set, is all that its own occurrences would give without the others. */
  ghost predicate Complete(received: seq<FetchResult>, items: seq<RssItem>, u: string) {
    forall y :: y in Converted(Dedup(OwnFeed(received, u))) ==> y in OfSource(Converted(items), u)
  }

  lemma EntryMembers(received: seq<FetchResult>, items: seq<RssItem>, u: string, y: StoredItem)
    requires Sorts(Dedup(AllItems(received)), items)
    ensures y in OfSource(Converted(items), u) <==>
            y.sourceURL == u && exists x :: x in Dedup(AllItems(received)) && Convert(x) == y
  {
    PermutationMember(Dedup(AllItems(received)), items);
    OfSourceMembers(Converted(items), u, y);
    ConvertedMembers(items, y);
    if x :| x in items && Convert(x) == y {
      assert x in Dedup(AllItems(received));
    }
  }

  /** The entry a batch stores for a URL holds only items of that URL, and only items that its own occurrences
      would give without the other URLs; all of those if no link is shared. */
  lemma EntryIsWithinOwn(received: seq<FetchResult>, items: seq<RssItem>, u: string)
    requires Tagged(received) && Sorts(Dedup(AllItems(received)), items)
    ensures forall y :: y in OfSource(Converted(items), u) ==>
              y.sourceURL == u && y in Converted(Dedup(OwnFeed(received, u)))
    ensures !Shared(received, u) ==> Complete(received, items, u)
  {
    forall y | y in OfSource(Converted(items), u)
      ensures y.sourceURL == u && y in Converted(Dedup(OwnFeed(received, u)))
    {
      EntryMembers(received, items, u, y);
      var x :| x in Dedup(AllItems(received)) && Convert(x) == y;
      SurvivorIsOwn(received, u, x);
      ConvertedMembers(Dedup(OwnFeed(received, u)), y);
    }
    if !Shared(received, u) {
      forall y | y in Converted(Dedup(OwnFeed(received, u)))
        ensures y in OfSource(Converted(items), u)
      {
        ConvertedMembers(Dedup(OwnFeed(received, u)), y);
        var x :| x in Dedup(OwnFeed(received, u)) && Convert(x) == y;
        DedupMembers(OwnFeed(received, u), x);
        if x.link != "" {
          LinksMember(OwnFeed(received, u), x);
          UnsharedComesFirst(received, u, x.link);
        }
        OwnSurvivesExactly(received, u, x);
        EntryMembers(received, items, u, y);
      }
    }
  }

  lemma TaggedPermutation(results: seq<FetchResult>, received: seq<FetchResult>)
    requires Tagged(results) && multiset(received) == multiset(results)
    ensures Tagged(received)
  {
    PermutationMember(received, results);
  }

  /** At hydration: a URL without an error is stored, with no item that parsing its occurrences alone (`solo`)
      would not have returned, and with all of those if no other URL of the batch shares one of its links. */
  lemma EntryIsWithinSolo(
    before: Contents, misses: seq<string>, sets: nat -> bool, results: seq<FetchResult>, received: seq<FetchResult>,
    answer: Answer, u: string, solo: seq<RssItem>
  )
    requires Answers(misses, results, received, answer) && Taken(misses, u, sets) && !SomeFailure(results, u)
    requires Sorts(Dedup(AllItems(Own(received, u))), solo)
    ensures var after := Hydrated(before, misses, Converted(answer.items), Reported(misses, answer.err), sets);
            && u in after
            && (forall y :: y in after[u] ==> y.sourceURL == u && y in Converted(solo))
            && (!Shared(received, u) ==> forall y :: y in Converted(solo) ==> y in after[u])
  {
    TaggedPermutation(results, received);
    ReportedErrors(misses, results, received, answer);
    HydratedAt(before, misses, Converted(answer.items), Reported(misses, answer.err), sets, u);
    EntryIsWithinOwn(received, answer.items, u);
    forall y
      ensures y in Converted(solo) <==> y in Converted(Dedup(OwnFeed(received, u)))
    {
      PermutationMember(Dedup(OwnFeed(received, u)), solo);
      ConvertedMembers(solo, y);
      ConvertedMembers(Dedup(OwnFeed(received, u)), y);
    }
  }

  /** Every occurrence of a URL that was fetched gave one feed. */
  predicate Yields(rs: seq<FetchResult>, u: string, feed: seq<RssItem>) {
    forall r :: r in rs && r.url == u ==> r.outcome == Fetched(feed)
  }

  lemma {:induction false} FirstRepeated(rs: seq<FetchResult>, u: string, feed: seq<RssItem>, l: string)
    requires Yields(rs, u, feed) && l != ""
    ensures First(OwnFeed(rs, u), l) == if exists r :: r in rs && r.url == u then First(feed, l) else None
  {
    if rs != [] {
      var r, rest := rs[0], rs[1..];
      assert forall r' :: r' in rs <==> r' == r || r' in rest;
      FirstRepeated(rest, u, feed, l);
      if r.url == u {
        assert Own(rs, u)[0] == r && Own(rs, u)[1..] == Own(rest, u);
        FirstConcat(feed, OwnFeed(rest, u), l);
      } else {
        assert Own(rs, u) == Own(rest, u);
      }
    }
  }

  /** If the occurrences of a URL all gave the same feed, what they would give alone is what that feed gives. */
  lemma OneFeed(rs: seq<FetchResult>, u: string, feed: seq<RssItem>, x: RssItem)
    requires Yields(rs, u, feed) && exists r :: r in rs && r.url == u
    ensures x in Dedup(OwnFeed(rs, u)) <==> x in Dedup(feed)
  {
    DedupMembers(OwnFeed(rs, u), x);
    DedupMembers(feed, x);
    OwnMembers(rs, u);
    AllItemsMembers(Own(rs, u), x);
    if x.link != "" {
      FirstRepeated(rs, u, feed, x.link);
    }
    var own :| own in rs && own.url == u;
    assert own in Own(rs, u) && ItemsOf(own) == feed;
  }

  /** Then the entry holds only items that survive in that feed alone; all of them if no link is shared. */
  lemma EntryIsWithinFeed(received: seq<FetchResult>, items: seq<RssItem>, u: string, feed: seq<RssItem>)
    requires Tagged(received) && Sorts(Dedup(AllItems(received)), items)
    requires Yields(received, u, feed) && exists r :: r in received && r.url == u
    ensures forall y :: y in OfSource(Converted(items), u) ==> y.sourceURL == u && y in Converted(Dedup(feed))
    ensures !Shared(received, u) ==> forall y :: y in Converted(Dedup(feed)) ==> y in OfSource(Converted(items), u)
  {
    EntryIsWithinOwn(received, items, u);
    forall y
      ensures y in Converted(Dedup(feed)) <==> y in Converted(Dedup(OwnFeed(received, u)))
    {
      ConvertedMembers(Dedup(feed), y);
      ConvertedMembers(Dedup(OwnFeed(received, u)), y);
      forall x
        ensures x in Dedup(OwnFeed(received, u)) <==> x in Dedup(feed)
      {
        OneFeed(received, u, feed, x);
      }
    }
  }

  /******* Which entries are complete in every schedule *******/

  /** If another URL's item with a link of the URL's own comes first, the URL's own item with that link is gone. */
  lemma IncompleteIfLate(received: seq<FetchResult>, items: seq<RssItem>, u: string, l: string)
    requires Tagged(received) && Sorts(Dedup(AllItems(received)), items) && l in Links(OwnFeed(received, u))
    requires First(AllItems(received), l).Some? && First(AllItems(received), l).value.sourceURL != u
    ensures !Complete(received, items, u)
  {
    FirstExists(OwnFeed(received, u), l);
    var x := First(OwnFeed(received, u), l).value;
    DedupMembers(OwnFeed(received, u), x);
    OwnFeedMembers(received, u, x);
    ConvertedMembers(Dedup(OwnFeed(received, u)), Convert(x));
    EntryMembers(received, items, u, Convert(x));
    forall z | z in Dedup(AllItems(received))
      ensures Convert(z) != Convert(x)
    {
      DedupMembers(AllItems(received), z);
    }
  }

  /** The results of a batch whose goroutines all wait for their fetches, by their numbers. */
  function ResultsOf(urls: seq<string>, fetched: seq<Outcome>): seq<FetchResult> {
    Map(ResultOf(urls, fetched, {}), Indices(|urls|))
  }

  /** The number of a goroutine moved to the front. */
  function FirstServed(n: nat, i: nat): seq<nat>
    requires i < n
  {
    [i] + (Indices(n)[..i] + Indices(n)[i + 1..])
  }

  lemma FirstServedIsAnOrder(n: nat, i: nat)
    requires i < n
    ensures multiset(FirstServed(n, i)) == multiset(Indices(n))
  {
    RemoveOne(Indices(n), i);
    assert Indices(n)[i] == i && Indices(n)[i] in multiset(Indices(n));
  }

  /** Own links do not depend on the order of arrival. */
  lemma OwnLinks(a: seq<FetchResult>, b: seq<FetchResult>, u: string)
    requires Tagged(a) && (forall r :: r in a && r.outcome.Fetched? ==> r in b) && Tagged(b)
    ensures Links(OwnFeed(a, u)) <= Links(OwnFeed(b, u))
  {
    forall l | l in Links(OwnFeed(a, u))
      ensures l in Links(OwnFeed(b, u))
    {
      FirstExists(OwnFeed(a, u), l);
      var x := First(OwnFeed(a, u), l).value;
      OwnFeedMembers(a, u, x);
      AllItemsMembers(a, x);
      var r :| r in a && x in ItemsOf(r);
      AllItemsMembers(b, x);
      OwnFeedMembers(b, u, x);
      LinksMember(OwnFeed(b, u), x);
    }
  }

  lemma SharedInMore(a: seq<FetchResult>, b: seq<FetchResult>, u: string)
    requires Tagged(a) && (forall r :: r in a && r.outcome.Fetched? ==> r in b) && Tagged(b)
    requires Shared(a, u)
    ensures Shared(b, u)
  {
    OwnLinks(a, b, u);
    var r :| r in a && r.url != u && Links(ItemsOf(r)) * Links(OwnFeed(a, u)) != {};
    var l :| l in Links(ItemsOf(r)) * Links(OwnFeed(a, u));
    assert r.outcome.Fetched?;
    assert l in Links(ItemsOf(r)) * Links(OwnFeed(b, u));
  }

  /** What a schedule receives is, where it was fetched, what the batch's fetches gave. */
  lemma ReceivedAreResults(limit: nat, urls: seq<string>, fetched: seq<Outcome>, s: State)
    requires Reachable(limit, |urls|, s) && Finished(s)
    ensures forall r :: r in Received(urls, fetched, s) && r.outcome.Fetched? ==> r in ResultsOf(urls, fetched)
  {
    CollectsEveryResultOnce(limit, |urls|, s);
    PermutationMember(s.drained, Indices(|urls|));
    MapAt(ResultOf(urls, fetched, s.gaveUp), s.drained);
    MapAt(ResultOf(urls, fetched, {}), Indices(|urls|));
    var received, results := Received(urls, fetched, s), ResultsOf(urls, fetched);
    forall r | r in received && r.outcome.Fetched?
      ensures r in results
    {
      var k :| 0 <= k < |received| && received[k] == r;
      var i := s.drained[k];
      assert i in s.drained && i in Indices(|urls|);
      assert results[i] == ResultOf(urls, fetched, {})(i) == r;
    }
  }

  /** A schedule that serves a sharing URL first leaves the entry incomplete. */
  lemma SharingScheduleExists(limit: nat, urls: seq<string>, fetched: seq<Outcome>, u: string)
    returns (s: State, items: seq<RssItem>)
    requires limit > 0 && Tagged(ResultsOf(urls, fetched)) && Shared(ResultsOf(urls, fetched), u)
    ensures Reachable(limit, |urls|, s) && Finished(s) && Sorts(Dedup(AllItems(Received(urls, fetched, s))), items)
    ensures !Complete(Received(urls, fetched, s), items, u)
  {
    var results, n := ResultsOf(urls, fetched), |urls|;
    MapAt(ResultOf(urls, fetched, {}), Indices(n));
    var r :| r in results && r.url != u && Links(ItemsOf(r)) * Links(OwnFeed(results, u)) != {};
    var l :| l in Links(ItemsOf(r)) * Links(OwnFeed(results, u));
    var i :| 0 <= i < |results| && results[i] == r;
    FirstServedIsAnOrder(n, i);
    s := EveryOrderHappens(limit, n, FirstServed(n, i));
    var received := Received(urls, fetched, s);
    items := SortExists(Dedup(AllItems(received)));
    ReceivesAll(limit, urls, fetched, s);
    assert received[0] == r;
    FirstForeignIsLate(results, received, items, u, l);
  }

  /** A foreign result that arrives first with an own link leaves the entry incomplete. */
  lemma FirstForeignIsLate(results: seq<FetchResult>, received: seq<FetchResult>, items: seq<RssItem>, u: string,
          l: string)
    requires Tagged(results) && multiset(received) == multiset(results) && Sorts(Dedup(AllItems(received)), items)
    requires received != [] && received[0].url != u && l in Links(ItemsOf(received[0]))
        && l in Links(OwnFeed(results, u))
    ensures !Complete(received, items, u)
  {
    var r := received[0];
    PermutationMember(received, results);
    TaggedPermutation(results, received);
    OwnLinks(results, received, u);
    FirstConcat(ItemsOf(r), AllItems(received[1..]), l);
    FirstExists(ItemsOf(r), l);
    assert r in received;
    IncompleteIfLate(received, items, u, l);
  }

  /** Whether a URL's entry is all that its own occurrences would give alone, whatever the schedule and whichever
      goroutines give up: exactly if no other URL of the batch gives an item with one of its links. */
  lemma CompleteExactly(limit: nat, urls: seq<string>, fetched: seq<Outcome>, u: string)
    requires limit > 0 && Tagged(ResultsOf(urls, fetched))
    ensures !Shared(ResultsOf(urls, fetched), u) <==>
            forall s, items ::
              Reachable(limit, |urls|, s) && Finished(s)
                && Sorts(Dedup(AllItems(Received(urls, fetched, s))), items) ==>
                Complete(Received(urls, fetched, s), items, u)
  {
    if Shared(ResultsOf(urls, fetched), u) {
      var s, items := SharingScheduleExists(limit, urls, fetched, u);
    } else {
      forall s, items | Reachable(limit, |urls|, s) && Finished(s)
                        && Sorts(Dedup(AllItems(Received(urls, fetched, s))), items)
        ensures Complete(Received(urls, fetched, s), items, u)
      {
        var received := Received(urls, fetched, s);
        ReceivedAreResults(limit, urls, fetched, s);
        assert Tagged(received);
        if Shared(received, u) {
          SharedInMore(received, ResultsOf(urls, fetched), u);
        }
        EntryIsWithinOwn(received, items, u);
      }
    }
  }

  lemma FetchedCons(r: FetchResult, rs: seq<FetchResult>)
    requires r.outcome.Fetched?
    ensures AllItems([r] + rs) == r.outcome.items + AllItems(rs) && AllErrors([r] + rs) == AllErrors(rs)
  {
    assert ([r] + rs)[1..] == rs;
  }

  lemma PairDedup(x: RssItem, y: RssItem)
    requires x.link == y.link != ""
    ensures Dedup([x]) == [x] && Dedup([x, y]) == [x]
  {
    assert [x][..0] == [] && [x, y][..1] == [x];
    assert [x][0].link in Links([x]);
    assert Links([]) == {};
  }

  /** With a shared link the entry can be strictly smaller: when another feed's item with the same link is received
      first, no entry item is left of a one-item feed, although parsing that feed alone would have returned the
      item. */
  lemma EntryCanBeStrict(x: RssItem, y: RssItem)
    requires x.link == y.link != "" && x.sourceURL != y.sourceURL
    ensures var received := [FetchResult(x.sourceURL, Fetched([x])), FetchResult(y.sourceURL, Fetched([y]))];
            && AllErrors(received) == []
            && OfSource(Converted(Dedup(AllItems(received))), y.sourceURL) == []
            && Converted(Dedup(AllItems([received[1]]))) == [Convert(y)]
  {
    PairFetched(x, y);
    PairDedup(x, y);
    PairDedup(y, y);
    SingleEntry(x, y.sourceURL);
    SingleEntry(y, x.sourceURL);
  }

  /** Two one-item feeds: the items received are the pair, and the second alone gives its own. */
  lemma PairFetched(x: RssItem, y: RssItem)
    ensures var r1, r2 := FetchResult(x.sourceURL, Fetched([x])), FetchResult(y.sourceURL, Fetched([y]));
            && AllErrors([r1, r2]) == []
            && AllItems([r1, r2]) == [x, y]
            && AllItems([r2]) == [y]
  {
    var r1, r2 := FetchResult(x.sourceURL, Fetched([x])), FetchResult(y.sourceURL, Fetched([y]));
    FetchedCons(r2, []);
    FetchedCons(r1, [r2]);
    assert [r2] + [] == [r2] && [r1] + [r2] == [r1, r2];
    assert [y] + AllItems([]) == [y] && [x] + [y] == [x, y];
  }

  lemma SingleEntry(x: RssItem, u: string)
    requires x.sourceURL != u
    ensures Converted([x]) == [Convert(x)] && OfSource(Converted([x]), u) == []
  {
    MapAt(Convert, [x]);
    assert Converted([x]) == [Convert(x)];
    assert [Convert(x)][..0] == [];
  }
}
