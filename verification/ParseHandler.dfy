/** The REST endpoint `/parse`: it prefers the queue and falls back to answering by itself. */
module ParseHandler {
  import opened Base
  import Dates
  import opened FeedItems
  import opened JobStore
  import opened Pipeline
  import opened Reader
  import opened Sequences
  import opened UrlCache

  datatype Request = Request(urls: seq<string>, id: string)

  /** What the environment answers: the two store writes, and the publication of the command, absent without a
      publisher. */
  datatype Environment = Environment(firstCreate: bool, finalCreate: bool, command: Option<bool>)

  datatype Response = BadRequest | Accepted(id: string) | Completed(id: string, verdict: Verdict)

  /** What a cache, possibly absent, shows. */
  ghost function Shown(cache: URLCache?): Contents
    reads cache
  {
    if cache == null then map[] else cache.Visible()
  }

  function JobID(req: Request, newID: string): string {
    if req.id == "" then newID else req.id
  }

  /** The store accepts the pending job, and the queue takes the command. */
  predicate Queued(isFallback: bool, env: Environment) {
    !isFallback && env.firstCreate && env.command == Some(true)
  }

  function PendingDoc(id: string): Doc {
    Doc(id, "pending", [], [], "")
  }

  /** A request without URLs is refused. Otherwise the job goes under the request's id, or a new one. Outside fallback
      mode, with a publisher, a pending record is written first, and if the store and the queue take it the answer is
      that id; in every other case the endpoint judges the batch itself and records the verdict if Redis takes it. */
  method Parse(req: Option<Request>, newID: string, store: RedisJobStore, cache: URLCache?, redis: Redis,
               isFallback: bool, reader: seq<string> -> Answer, env: Environment)
    returns (resp: Response)
    requires store.Valid() && (cache != null ==> cache.Valid())
    modifies store, if cache == null then {} else {cache}
    ensures store.Valid() && (cache != null ==> cache.Valid())
    ensures resp.BadRequest? <==> req.None? || req.value.urls == []
    ensures resp.Accepted? <==>
            req.Some? && req.value.urls != [] && !isFallback && env.firstCreate && env.command == Some(true)
    ensures !resp.BadRequest? ==> resp.id == if req.value.id == "" then newID else req.value.id
    ensures resp.Completed? ==>
              resp.verdict == Judge(req.value.urls, Looked(old(Shown(cache)), req.value.urls, redis.gets), reader)
    ensures resp.BadRequest? ==> store.data == old(store.data)
    ensures resp.Accepted? ==>
              store.data == old(store.data)["job:" + resp.id := Doc(resp.id, "pending", [], [], "")]
    ensures resp.Completed? ==>
              var v, key := resp.verdict, "job:" + resp.id;
              store.data == if env.finalCreate
                            then old(store.data)[key := Doc(resp.id, v.status, v.items, v.errors, v.error)]
                            else if !isFallback && env.command.Some? && env.firstCreate
                            then old(store.data)[key := Doc(resp.id, "pending", [], [], "")]
                            else old(store.data)
    ensures cache != null ==>
              cache.contents == if resp.Completed? && cache.hasClient
                                then CacheAfter(old(cache.contents), req.value.urls, redis, reader)
                                else old(cache.contents)
  {
    if req.None? || |req.value.urls| == 0 {
      return BadRequest;
    }
    var id := if req.value.id == "" then newID else req.value.id;
    if !isFallback && env.command.Some? {
      var queued := TryQueue(store, id, env);
      if queued {
        return Accepted(id);
      }
    }
    var v := Fallback(store, cache, redis, id, req.value.urls, reader, env.finalCreate);
    return Completed(id, v);
  }

  /** The synchronous path: answer, then record the finished job. */
  method Fallback(store: RedisJobStore, cache: URLCache?, redis: Redis, id: string, urls: seq<string>,
          reader: seq<string> -> Answer,
                  reachable: bool)
    returns (v: Verdict)
    requires store.Valid() && (cache != null ==> cache.Valid())
    modifies store, if cache == null then {} else {cache}
    ensures v == Judge(urls, Looked(old(Shown(cache)), urls, redis.gets), reader)
    ensures store.Valid() && (cache != null ==> cache.Valid())
    ensures store.data == if reachable then old(store.data)["job:" + id := DocOf(id, v)] else old(store.data)
    ensures cache != null ==> cache.contents == if cache.hasClient
                                                then CacheAfter(old(cache.contents), urls, redis, reader)
                                                else old(cache.contents)
  {
    v := AnswerSynchronously(cache, redis, reader, urls);
    Record(store, id, v, reachable);
  }

  /** Creates the pending job and publishes the command; a failure of either falls through. */
  method TryQueue(store: RedisJobStore, id: string, env: Environment) returns (queued: bool)
    requires store.Valid() && env.command.Some?
    modifies store
    ensures store.Valid()
    ensures queued <==> env.firstCreate && env.command.value
    ensures store.data == if env.firstCreate then old(store.data)["job:" + id := PendingDoc(id)] else old(store.data)
  {
    var job := new Job(id, "pending", null, null, "");
    var created := store.Create(job, env.firstCreate);
    queued := created.Ok? && env.command.value;
  }

  /** Saves the finished job so that it can still be polled; a refusal is ignored. */
  method Record(store: RedisJobStore, id: string, v: Verdict, reachable: bool)
    requires store.Valid()
    modifies store
    ensures store.Valid()
    ensures store.data == if reachable then old(store.data)["job:" + id := DocOf(id, v)] else old(store.data)
  {
    var items := ToSlice(v.items);
    var errors := ToSlice(v.errors);
    var job := new Job(id, v.status, items, errors, v.error);
    var _ := store.Create(job, reachable);
  }

  method AnswerSynchronously(cache: URLCache?, redis: Redis, reader: seq<string> -> Answer, urls: seq<string>)
    returns (v: Verdict)
    requires cache != null ==> cache.Valid()
    modifies if cache == null then {} else {cache}
    ensures v == Judge(urls, Looked(old(Shown(cache)), urls, redis.gets), reader)
    ensures cache != null ==> cache.Valid()
    ensures cache != null ==> cache.contents == if cache.hasClient
                                                then CacheAfter(old(cache.contents), urls, redis, reader)
                                                else old(cache.contents)
  {
    var finalItems, urlsToFetch := CheckCache(cache, redis.gets, urls);
    var finalErrors: seq<URLErr> := [];
    if urlsToFetch != [] {
      finalItems, finalErrors := ParseMisses(cache, redis.sets, urlsToFetch, reader(urlsToFetch), finalItems);
    }

    if |finalItems| == 0 && |finalErrors| >= |urls| && |urls| > 0 {
      v := Verdict("failed", [], finalErrors, "all URLs failed");
    } else {
      v := Verdict("done", finalItems, finalErrors, "");
    }
  }

  method CheckCache(cache: URLCache?, gets: nat -> bool, urls: seq<string>)
    returns (items: seq<StoredItem>, misses: seq<string>)
    requires cache != null ==> cache.Valid()
    ensures var shown := Looked(Shown(cache), urls, gets);
            items == Hits(shown) && misses == Misses(urls, shown)
  {
    if cache == null {
      NothingCached(urls, gets);
      return [], urls;
    }
    items, misses := [], [];
    for i := 0 to |urls|
      invariant items == Hits(Looked(Shown(cache), urls[..i], gets))
      invariant misses == Misses(urls[..i], Looked(Shown(cache), urls[..i], gets))
    {
      LookStep(Shown(cache), urls, gets, i);
      var cached := cache.Get(urls[i], gets(i));
      match cached
      case Some(found) => items := items + found;
      case None => misses := misses + [urls[i]];
    }
    assert urls[..|urls|] == urls;
  }

  /** Without a cache every URL is a miss. */
  lemma {:induction false} NothingCached(urls: seq<string>, gets: nat -> bool)
    ensures var shown := Looked(map[], urls, gets);
            Hits(shown) == [] && Misses(urls, shown) == urls
  {
    if urls != [] {
      var n := |urls| - 1;
      NothingCached(urls[..n], gets);
      OneMoreLook(urls[..n], Looked(map[], urls[..n], gets), urls[n], None);
      assert urls == urls[..n] + [urls[n]];
    }
  }

  method ParseMisses(cache: URLCache?, sets: nat -> bool, misses: seq<string>, answer: Answer, cached: seq<StoredItem>)
    returns (finalItems: seq<StoredItem>, finalErrors: seq<URLErr>)
    requires cache != null ==> cache.Valid()
    modifies if cache == null then {} else {cache}
    ensures finalItems == cached + Converted(answer.items)
    ensures finalErrors == Reported(misses, answer.err)
    ensures cache != null ==> cache.Valid()
    ensures cache != null ==> cache.contents == if cache.hasClient
                                                then Hydrated(old(cache.contents), misses, Converted(answer.items),
                                                  finalErrors, sets)
                                                else old(cache.contents)
  {
    var byURL;
    finalItems, byURL := AppendItems(cached, answer.items);
    finalErrors := ReportErrors(misses, answer.err);
    if cache != null {
      HydrateMisses(cache, sets, misses, byURL, Converted(answer.items), finalErrors);
    }
  }

  /** Appends the parsed items to those found so far, and groups them by the URL they came from. */
  method AppendItems(cached: seq<StoredItem>, items: seq<RssItem>)
    returns (all: seq<StoredItem>, byURL: map<string, seq<StoredItem>>)
    ensures all == cached + Converted(items)
    ensures Groups(byURL, Converted(items))
  {
    all, byURL := cached, map[];
    ghost var parsed: seq<StoredItem> := [];
    for i := 0 to |items|
      invariant parsed == Converted(items[..i])
      invariant all == cached + parsed
      invariant Groups(byURL, parsed)
    {
      var x := items[i];
      var rssItem := StoredItem(x.title, x.source, x.sourceURL, x.link, Dates.String(x.publishDate), x.description);
      ConvertedAppend(items, i);
      GroupsGrow(byURL, parsed, rssItem);
      ConcatAppend(cached, parsed, rssItem);
      parsed := parsed + [rssItem];
      all := all + [rssItem];
      byURL := byURL[x.sourceURL := (if x.sourceURL in byURL then byURL[x.sourceURL] else []) + [rssItem]];
    }
    assert items[..|items|] == items;
  }

  method ReportErrors(misses: seq<string>, err: ReaderError) returns (errs: seq<URLErr>)
    ensures errs == Reported(misses, err)
  {
    errs := [];
    if err.PerURL? {
      for i := 0 to |err.errs|
        invariant errs == Map(ToURLErr, err.errs[..i])
      {
        var ue := err.errs[i];
        assert err.errs[..i + 1] == err.errs[..i] + [ue];
        MapConcat(ToURLErr, err.errs[..i], [ue]);
        assert [ue][1..] == [];
        errs := errs + [URLErr(ue.url, ErrorText(ue))];
      }
      assert err.errs[..|err.errs|] == err.errs;
    } else if err.Other? {
      ghost var each := u => URLErr(u, err.message);
      for i := 0 to |misses|
        invariant errs == Map(each, misses[..i])
      {
        assert misses[..i + 1] == misses[..i] + [misses[i]];
        MapConcat(each, misses[..i], [misses[i]]);
        assert [misses[i]][1..] == [];
        errs := errs + [URLErr(misses[i], err.message)];
      }
      assert misses[..|misses|] == misses;
    }
  }

  method HydrateMisses(cache: URLCache, sets: nat -> bool, misses: seq<string>, byURL: map<string, seq<StoredItem>>,
                       ghost parsed: seq<StoredItem>, errs: seq<URLErr>)
    requires cache.Valid()
    requires Groups(byURL, parsed)
    modifies cache
    ensures cache.Valid()
    ensures cache.contents == if cache.hasClient
                              then Hydrated(old(cache.contents), misses, parsed, errs, sets)
                              else old(cache.contents)
  {
    for i := 0 to |misses|
      invariant cache.Valid()
      invariant cache.contents == if cache.hasClient
                                  then Hydrated(old(cache.contents), misses[..i], parsed, errs, sets)
                                  else old(cache.contents)
    {
      var u := misses[i];
      assert misses[..i + 1][..i] == misses[..i];
      var k := 0;
      while k < |errs| && errs[k].url != u
        invariant k <= |errs| && forall j :: 0 <= j < k ==> errs[j].url != u
      {
        k := k + 1;
      }
      assert k == |errs| <==> !Failed(u, errs);
      if k == |errs| {
        var _ := cache.Set(u, if u in byURL then byURL[u] else [], sets(i));
      }
    }
    assert misses[..|misses|] == misses;
  }
}
