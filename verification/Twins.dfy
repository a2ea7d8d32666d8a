/** The worker and the synchronous endpoint, written separately, do the same. */
module Twins {
  import opened Base
  import opened JobStore
  import opened Pipeline
  import opened UrlCache
  import Processor
  import ParseHandler

  /** The environment answers everything, and the endpoint answers synchronously. */
  predicate Undisturbed(isFallback: bool, env: Processor.Environment, env': ParseHandler.Environment) {
    && env.firstUpdate && env.finalUpdate && env.publish == Some(true)
    && env'.finalCreate && !ParseHandler.Queued(isFallback, env')
  }

  function MessageOf(resp: ParseHandler.Response): Option<Processor.ResultMessage> {
    if resp.Completed?
    then Some(Processor.ResultMessage(resp.id, resp.verdict.status, resp.verdict.items, resp.verdict.errors))
    else None
  }

  /** The same batch, given to the worker and to the endpoint's synchronous path on equal stores and equal caches
      with the same reader: the same verdict, the same cache and the same job record. */
  method WorkerAndEndpointAgree(
    store: RedisJobStore, store': RedisJobStore, cache: URLCache, cache': URLCache, redis: Redis,
    reader: seq<string> -> Answer, req: ParseHandler.Request, newID: string, isFallback: bool,
    env: Processor.Environment, env': ParseHandler.Environment)
    returns (published: Option<Processor.ResultMessage>, resp: ParseHandler.Response)
    requires store.Valid() && store'.Valid() && cache.Valid() && cache'.Valid()
    requires store != store' && cache != cache' && store.data == store'.data
    requires cache'.contents == cache.contents && cache'.hasClient == cache.hasClient
    requires req.urls != [] && Undisturbed(isFallback, env, env')
    modifies store, store', cache, cache'
    ensures published.Some? && published == MessageOf(resp)
    ensures store.data == store'.data
    ensures cache'.contents == cache.contents
  {
    var id := ParseHandler.JobID(req, newID);
    ghost var key, v := "job:" + id, Judge(req.urls, Looked(cache.Visible(), req.urls, redis.gets), reader);
    assert store.data[key := ParseHandler.PendingDoc(id)][key := DocOf(id, v)] == store.data[key := DocOf(id, v)];
    var done;
    done, published := Processor.Process(store, cache, redis, reader, env, id, req.urls);
    resp := ParseHandler.Parse(Some(req), newID, store', cache', redis, isFallback, reader, env');
  }

  /** An endpoint without a cache answers like a worker whose cache has no client. */
  method AbsentCacheIsClientless(
    store: RedisJobStore, store': RedisJobStore, cache: URLCache, redis: Redis,
    reader: seq<string> -> Answer, req: ParseHandler.Request, newID: string, isFallback: bool,
    env: Processor.Environment, env': ParseHandler.Environment)
    returns (published: Option<Processor.ResultMessage>, resp: ParseHandler.Response)
    requires store.Valid() && store'.Valid() && cache.Valid() && !cache.hasClient
    requires store != store' && store.data == store'.data
    requires req.urls != [] && Undisturbed(isFallback, env, env')
    modifies store, store', cache
    ensures published.Some? && published == MessageOf(resp)
    ensures store.data == store'.data
    ensures cache.contents == old(cache.contents)
  {
    var id := ParseHandler.JobID(req, newID);
    ghost var key, v := "job:" + id, Judge(req.urls, Looked(map[], req.urls, redis.gets), reader);
    assert store.data[key := ParseHandler.PendingDoc(id)][key := DocOf(id, v)] == store.data[key := DocOf(id, v)];
    var done;
    done, published := Processor.Process(store, cache, redis, reader, env, id, req.urls);
    resp := ParseHandler.Parse(Some(req), newID, store', null, redis, isFallback, reader, env');
  }
}
