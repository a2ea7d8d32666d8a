/** The queue worker's side of the pipeline. */
module Processor {
  import opened Base
  import opened FeedItems
  import opened JobStore
  import opened Pipeline
  import opened Reader
  import opened Sequences
  import opened UrlCache

  /** What the environment answers during one call: the two store updates, and the publication of the result,
      which is absent when there is no publisher. */
  datatype Environment = Environment(firstUpdate: bool, finalUpdate: bool, publish: Option<bool>)

  /** The message published on the results exchange. */
  datatype ResultMessage = ResultMessage(id: string, status: string, items: seq<StoredItem>, errors: seq<URLErr>)

  method Process(store: RedisJobStore, cache: URLCache, redis: Redis, reader: seq<string> -> Answer, env: Environment,
                 jobID: string, urls: seq<string>)
    returns (r: Result<()>, published: Option<ResultMessage>)
    requires store.Valid() && cache.Valid()
    modifies store, cache`entries, cache`contents
    ensures store.Valid() && cache.Valid()
    // A store that refuses the first update ends the call before anything else happens.
    ensures !env.firstUpdate ==> r == Err("failed to update job status") && published == None
    ensures !env.firstUpdate ==> store.data == old(store.data) && cache.contents == old(cache.contents)
    ensures env.firstUpdate ==>
              cache.contents == if cache.hasClient then CacheAfter(old(cache.contents), urls, redis, reader)
                else old(cache.contents)
    ensures env.firstUpdate ==>
              var v := Judge(urls, Looked(old(cache.Visible()), urls, redis.gets), reader);
              && store.data == old(store.data)["job:" + jobID :=
                   if env.finalUpdate then Doc(jobID, v.status, v.items, v.errors, v.error)
                   else Doc(jobID, "processing", [], [], "")]
              && published == (if env.finalUpdate && env.publish == Some(true)
                               then Some(ResultMessage(jobID, v.status, v.items, v.errors)) else None)
    ensures env.firstUpdate ==>
              r == if !env.finalUpdate then Err("failed to save final job status")
                   else if env.publish == Some(false) then Err("failed to publish result")
                   else Ok(())
  {
    var job := new Job(jobID, "processing", null, null, "");
    var updated := store.Update(job, env.firstUpdate);
    if updated.Err? {
      return Err("failed to update job status"), None;
    }

    var doc := ParseBatch(job, cache, redis, reader, urls);
    r, published := Deliver(store, job, doc, env);
    assert old(store.data)["job:" + jobID := Doc(jobID, "processing", [], [], "")]["job:" + jobID := doc]
        == old(store.data)["job:" + jobID := doc];
  }

  /** Saves the finished job and publishes its result. */
  method Deliver(store: RedisJobStore, job: Job, doc: Doc, env: Environment)
    returns (r: Result<()>, published: Option<ResultMessage>)
    requires store.Valid() && Marshal(job) == doc
    modifies store
    ensures store.Valid()
    ensures store.data == if env.finalUpdate then old(store.data)["job:" + doc.id := doc] else old(store.data)
    ensures r == if !env.finalUpdate then Err("failed to save final job status")
                 else if env.publish == Some(false) then Err("failed to publish result")
                 else Ok(())
    ensures published == if env.finalUpdate && env.publish == Some(true)
                         then Some(ResultMessage(doc.id, doc.status, doc.items, doc.errors)) else None
  {
    var updated := store.Update(job, env.finalUpdate);
    if updated.Err? {
      return Err("failed to save final job status"), None;
    }
    if env.publish.None? {
      return Ok(()), None;
    }
    if !env.publish.value {
      return Err("failed to publish result"), None;
    }
    return Ok(()), Some(ResultMessage(doc.id, doc.status, doc.items, doc.errors));
  }

  /** Everything between the two store updates. */
  method ParseBatch(job: Job, cache: URLCache, redis: Redis, reader: seq<string> -> Answer, urls: seq<string>)
    returns (doc: Doc)
    requires cache.Valid() && job.error == ""
    modifies job, cache`entries, cache`contents
    ensures cache.Valid()
    ensures doc == Marshal(job) == DocOf(old(job.id),
        Judge(urls, Looked(old(cache.Visible()), urls, redis.gets), reader))
    ensures job.id == old(job.id)
    ensures cache.contents == if cache.hasClient then CacheAfter(old(cache.contents), urls, redis, reader)
        else old(cache.contents)
  {
    var cachedItems, urlsToFetch := SplitByCache(cache, redis.gets, urls);
    var finalItems, finalErrors := FetchMisses(cache, redis.sets, urlsToFetch, reader, cachedItems);
    Complete(job, urls, finalItems, finalErrors);
    doc := Marshal(job);
  }

  method SplitByCache(cache: URLCache, gets: nat -> bool, urls: seq<string>)
    returns (items: seq<StoredItem>, misses: seq<string>)
    requires cache.Valid()
    ensures var shown := Looked(cache.Visible(), urls, gets);
            items == Hits(shown) && misses == Misses(urls, shown)
  {
    items, misses := [], [];
    for i := 0 to |urls|
      invariant items == Hits(Looked(cache.Visible(), urls[..i], gets))
      invariant misses == Misses(urls[..i], Looked(cache.Visible(), urls[..i], gets))
    {
      LookStep(cache.Visible(), urls, gets, i);
      var cached := cache.Get(urls[i], gets(i));
      if cached.Some? {
        items := items + cached.value;
      } else {
        misses := misses + [urls[i]];
      }
    }
    assert urls[..|urls|] == urls;
  }

  /** Fetches the misses, if any, and hydrates the cache with what came back. */
  method FetchMisses(cache: URLCache, sets: nat -> bool, misses: seq<string>, reader: seq<string> -> Answer,
          cached: seq<StoredItem>)
    returns (items: seq<StoredItem>, errs: seq<URLErr>)
    requires cache.Valid()
    modifies cache`entries, cache`contents
    ensures cache.Valid()
    ensures var answer := Asked(reader, misses);
            && items == cached + Converted(answer.items)
            && errs == Reported(misses, answer.err)
            && cache.contents == if cache.hasClient
                                 then Hydrated(old(cache.contents), misses, Converted(answer.items), errs, sets)
                                 else old(cache.contents)
  {
    if |misses| == 0 {
      return cached, [];
    }
    var answer := reader(misses);
    var parsed, grouped := ConvertAndGroup(answer.items);
    errs := CollectErrors(misses, answer.err);
    Hydrate(cache, sets, misses, grouped, parsed, errs);
    items := cached + parsed;
  }

  method ConvertAndGroup(items: seq<RssItem>) returns (parsed: seq<StoredItem>, grouped: map<string, seq<StoredItem>>)
    ensures parsed == Converted(items)
    ensures Groups(grouped, parsed)
  {
    parsed, grouped := [], map[];
    for i := 0 to |items|
      invariant parsed == Converted(items[..i])
      invariant Groups(grouped, parsed)
    {
      var x := Convert(items[i]);
      ConvertedAppend(items, i);
      GroupsGrow(grouped, parsed, x);
      parsed := parsed + [x];
      grouped := grouped[x.sourceURL := (if x.sourceURL in grouped then grouped[x.sourceURL] else []) + [x]];
    }
    assert items[..|items|] == items;
  }

  method Hydrate(cache: URLCache, sets: nat -> bool, misses: seq<string>, grouped: map<string, seq<StoredItem>>,
                 ghost parsed: seq<StoredItem>, errs: seq<URLErr>)
    requires cache.Valid()
    requires Groups(grouped, parsed)
    modifies cache`entries, cache`contents
    ensures cache.Valid()
    ensures cache.contents == if cache.hasClient
                              then Hydrated(old(cache.contents), misses, parsed, errs, sets)
                              else old(cache.contents)
  {
    for i := 0 to |misses|
      invariant cache.Valid()
      invariant cache.contents == if cache.hasClient
                                  then Hydrated(old(cache.contents), misses[..i], parsed, errs, sets)
                                  else old(cache.contents)
    {
      var u := misses[i];
      assert misses[..i + 1][..i] == misses[..i];
      var hasFailed := HasFailed(u, errs);
      if !hasFailed {
        var itemsForURL := if u in grouped then grouped[u] else [];
        var _ := cache.Set(u, itemsForURL, sets(i));
      }
    }
    assert misses[..|misses|] == misses;
  }

  /** Writes the outcome into the job object. */
  method Complete(job: Job, urls: seq<string>, items: seq<StoredItem>, errs: seq<URLErr>)
    requires job.error == ""
    modifies job
    ensures job.id == old(job.id) && Marshal(job) == DocOf(job.id, Conclude(urls, items, errs))
    ensures fresh(job.Objects() - {job})
  {
    var allFailed := |items| == 0 && |errs| >= |urls| && |urls| > 0;
    job.status := if allFailed then "failed" else "done";
    if allFailed {
      job.error := ALL_FAILED;
      job.items := null;
      job.errors := ToSlice(errs);
    } else {
      job.items := ToSlice(items);
      job.errors := ToSlice(errs);
    }
  }

  method CollectErrors(misses: seq<string>, err: ReaderError) returns (errs: seq<URLErr>)
    ensures errs == Reported(misses, err)
  {
    errs := [];
    match err
    case NoError =>
    case PerURL(ues) =>
      for i := 0 to |ues|
        invariant errs == Map(ToURLErr, ues[..i])
      {
        assert ues[..i + 1] == ues[..i] + [ues[i]];
        MapConcat(ToURLErr, ues[..i], [ues[i]]);
        assert [ues[i]][1..] == [];
        errs := errs + [URLErr(ues[i].url, ErrorText(ues[i]))];
      }
      assert ues[..|ues|] == ues;
    case Other(message) =>
      ghost var each := u => URLErr(u, message);
      for i := 0 to |misses|
        invariant errs == Map(each, misses[..i])
      {
        assert misses[..i + 1] == misses[..i] + [misses[i]];
        MapConcat(each, misses[..i], [misses[i]]);
        assert [misses[i]][1..] == [];
        errs := errs + [URLErr(misses[i], message)];
      }
      assert misses[..|misses|] == misses;
  }

  method HasFailed(u: string, errs: seq<URLErr>) returns (found: bool)
    ensures found <==> Failed(u, errs)
  {
    found := false;
    for i := 0 to |errs|
      invariant !found && forall k :: 0 <= k < i ==> errs[k].url != u
    {
      if errs[i].url == u {
        return true;
      }
    }
  }
}
