/** From the worker's verdict to the tables and back: what the two services do together. */
module EndToEnd {
  import opened Base
  import CacheRuns
  import opened CacheSoundness
  import Dates
  import opened FeedItems
  import opened JobStore
  import opened Persistence
  import opened Pipeline
  import opened Reader
  import opened ResultJob
  import opened ResultStatus
  import opened Sequences
  import opened UrlCache
  import ParseHandler
  import Processor
  import PublishJob

  /******* What crosses the wire *******/

  /** The service encodes every field of an item, empty ones as empty strings. */
  function ItemOf(x: StoredItem): Item {
    Item(Some(x.title), Some(x.source), Some(x.sourceURL), Some(x.link), Some(x.publishDate), None, Some(x.description))
  }

  function Sent(items: seq<StoredItem>): seq<Item> {
    Map(ItemOf, items)
  }

  function EntryOf(e: URLErr): ErrorEntry {
    ForURL(e.url, e.error)
  }

  function StatusOf(text: string): Status {
    if text == "pending" then Pending
    else if text == "processing" then Processing
    else if text == "done" then Completed
    else if text == "failed" then Failed
    else Unlisted(text)
  }

  function PayloadOf(m: Processor.ResultMessage): Payload {
    Result(m.id, Some(StatusOf(m.status)), Sent(m.items), Map(EntryOf, m.errors))
  }

  function ReplyOf(resp: ParseHandler.Response): PublishJob.HttpReply {
    match resp
    case BadRequest => PublishJob.Answered("400", None)
    case Accepted(_) => PublishJob.Answered("202", None)
    case Completed(id, v) =>
      PublishJob.Answered("200", Some(PublishJob.Body(id, StatusOf(v.status), Sent(v.items), Map(EntryOf, v.errors))))
  }

  /** The wire keeps everything: the four statuses, every field of every item, and every error with its URL. */
  lemma WireKeepsAll(m: Processor.ResultMessage)
    ensures var p := PayloadOf(m);
            && p.Result? && p.job == m.id
            && (m.status == "pending" ==> p.status == Some(Pending))
            && (m.status == "processing" ==> p.status == Some(Processing))
            && (m.status == "done" ==> p.status == Some(Completed))
            && (m.status == "failed" ==> p.status == Some(ResultStatus.Failed))
            && (m.status !in {"pending", "processing", "done", "failed"} ==> p.status == Some(Unlisted(m.status)))
    ensures var p := PayloadOf(m);
            && |p.items| == |m.items|
            && forall k :: 0 <= k < |m.items| ==>
                 var x, y := p.items[k], m.items[k];
                 && x.title == Some(y.title) && x.source == Some(y.source) && x.sourceURL == Some(y.sourceURL)
                 && x.link == Some(y.link) && x.publishDate == Some(y.publishDate)
                 && x.description == Some(y.description)
    ensures var p := PayloadOf(m);
            && |p.errors| == |m.errors|
            && forall k :: 0 <= k < |m.errors| ==> p.errors[k] == ForURL(m.errors[k].url, m.errors[k].error)
  {
    assert "done"[0] == 'd' && "failed"[0] == 'f' && |"pending"| == 7 && |"processing"| == 10;
    MapAt(ItemOf, m.items);
    MapAt(EntryOf, m.errors);
  }

  /** What the publisher relies on: a synchronous answer is never open, and says what the verdict says. */
  lemma AnswersConclude(urls: seq<string>, shown: seq<CacheRead>, reader: seq<string> -> Answer)
    requires |shown| == |urls|
    ensures Terminal(StatusOf(Judge(urls, shown, reader).status))
    ensures StatusOf(Judge(urls, shown, reader).status)
        == if Judge(urls, shown, reader).status == "failed" then ResultStatus.Failed else Completed
  {
    assert "done"[0] == 'd' && "failed"[0] == 'f' && "pending"[0] == 'p' && "processing"[0] == 'p';
  }

  lemma SentMembers(items: seq<StoredItem>)
    ensures forall x :: x in Sent(items) ==> x.link.Some? && exists y :: y in items && x == ItemOf(y)
  {
    MapAt(ItemOf, items);
  }

  /** The items of the service can be stored, and storing them again changes nothing: their links are never missing. */
  lemma SentItemsAreStoredOnce(t: Tables, request: nat, items: seq<StoredItem>)
    requires Persistence.Valid(t) && Storable(Sent(items))
    ensures var once := Persist(t, request, Sent(items));
            once.ok && Persist(once.tables, request, Sent(items)).tables == once.tables
  {
    SentMembers(items);
    SucceedsExactly(t, request, Sent(items));
    StoringAgain(t, request, Sent(items));
  }

  /******* Which verdicts can be stored *******/

  /** What the reads showed is about the URLs they asked for. */
  predicate OwnItems(urls: seq<string>, shown: seq<CacheRead>)
    requires |shown| == |urls|
  {
    forall i :: 0 <= i < |urls| && shown[i].Some? ==> forall y :: y in shown[i].value ==> y.sourceURL == urls[i]
  }

  lemma {:induction false} HitsAreOwn(urls: seq<string>, shown: seq<CacheRead>)
    requires |shown| == |urls| && OwnItems(urls, shown)
    ensures forall y :: y in Hits(shown) ==> y.sourceURL in urls
  {
    if urls != [] {
      var n := |urls| - 1;
      HitsAreOwn(urls[..n], shown[..n]);
      InitAndLast(urls);
    }
  }

  lemma {:induction false} MissesAreAsked(urls: seq<string>, shown: seq<CacheRead>)
    requires |shown| == |urls|
    ensures forall u :: u in Misses(urls, shown) ==> u in urls
  {
    if urls != [] {
      var n := |urls| - 1;
      MissesAreAsked(urls[..n], shown[..n]);
      InitAndLast(urls);
    }
  }

  lemma AnsweredAreAsked(misses: seq<string>, results: seq<FetchResult>, received: seq<FetchResult>, answer: Answer,
          y: StoredItem)
    requires Answers(misses, results, received, answer) && y in Converted(answer.items)
    ensures y.sourceURL in misses
  {
    ConvertedMembers(answer.items, y);
    var x :| x in answer.items && Convert(x) == y;
    PermutationMember(Dedup(AllItems(received)), answer.items);
    DedupMembers(AllItems(received), x);
    AllItemsMembers(received, x);
    var r :| r in received && x in ItemsOf(r);
    PermutationMember(received, results);
    assert r in results && x.sourceURL == r.url;
    var i :| 0 <= i < |results| && results[i] == r;
    assert misses[i] == r.url;
  }

  /** If no requested URL is blank, the reader meets its contract and the reads showed their URLs' own items, then every
      item of the verdict comes from a requested URL, so the verdict can be stored. */
  lemma VerdictIsStorable(urls: seq<string>, shown: seq<CacheRead>, reader: seq<string> -> Answer,
                          results: seq<FetchResult>, received: seq<FetchResult>)
    requires |shown| == |urls| && OwnItems(urls, shown) && forall u :: u in urls ==> !Blank(Some(u))
    requires Answers(Misses(urls, shown), results, received, reader(Misses(urls, shown)))
    ensures Storable(Sent(Judge(urls, shown, reader).items))
  {
    var v, misses := Judge(urls, shown, reader), Misses(urls, shown);
    HitsAreOwn(urls, shown);
    MissesAreAsked(urls, shown);
    SentMembers(v.items);
    forall y | y in v.items
      ensures y.sourceURL in urls
    {
      if y !in Hits(shown) {
        assert y in Converted(Asked(reader, misses).items);
        if misses != [] {
          AnsweredAreAsked(misses, results, received, reader(misses), y);
        }
      }
    }
  }

  /** In every reachable state of interleaved batches, a finished batch that asked for no blank URL can be stored. */
  lemma FinishedBatchIsStorable(s: CacheRuns.State, i: nat)
    requires CacheRuns.Reachable(s) && i < |s.batches| && CacheRuns.Finished(s.batches[i])
    requires forall u :: u in s.batches[i].urls ==> !Blank(Some(u))
    ensures Storable(Sent(CacheRuns.VerdictOf(s.batches[i]).items))
  {
    CacheRuns.FinishedBatches(s, i);
    var b := s.batches[i];
    var reader := _ => if b.fetch.Some? then b.fetch.value.answer else Answer.Answer([], NoError);
    if CacheRuns.MissesOf(b) == [] {
      HitsAreOwn(b.urls, b.shown);
      SentMembers(CacheRuns.VerdictOf(b).items);
      assert Converted([]) == [];
    } else {
      CacheRuns.FetchIsMet(s, i);
      VerdictIsStorable(b.urls, b.shown, reader, b.fetch.value.results, b.fetch.value.received);
    }
  }

  /******* From a feed to a row *******/

  /** What a hit or the answer says about a row: every field of one of their items. */
  predicate TellsOf(row: ItemRow, y: StoredItem) {
    && row.columns.title == Some(y.title) && row.columns.source == Some(y.source)
    && row.columns.sourceURL == Some(y.sourceURL) && row.columns.link == Some(y.link)
    && row.columns.publishDate == Some(y.publishDate) && row.columns.description == Some(y.description)
  }

  lemma CachedOrParsed(urls: seq<string>, shown: seq<CacheRead>, reader: seq<string> -> Answer, y: StoredItem)
    requires |shown| == |urls| && y in Judge(urls, shown, reader).items
    ensures (exists i :: 0 <= i < |urls| && shown[i].Some? && y in shown[i].value)
        || exists x :: x in Asked(reader, Misses(urls, shown)).items && Convert(x) == y
  {
    HitMembers(shown, y);
    ConvertedMembers(Asked(reader, Misses(urls, shown)).items, y);
  }

  lemma {:induction false} HitMembers(shown: seq<CacheRead>, y: StoredItem)
    ensures y in Hits(shown) <==> exists i :: 0 <= i < |shown| && shown[i].Some? && y in shown[i].value
  {
    if shown != [] {
      HitMembers(shown[..|shown| - 1], y);
    }
  }

  lemma SentAt(items: seq<StoredItem>, i: nat)
    requires i < |Sent(items)|
    ensures i < |items| && Sent(items)[i] == ItemOf(items[i])
  {
    MapAt(ItemOf, items);
  }

  /** Every row that is added is one of the items sent. */
  lemma RowOfSent(t: Tables, request: nat, items: seq<StoredItem>, k: nat) returns (y: StoredItem)
    requires Persistence.Valid(t)
    requires |t.items| <= k < |Persist(t, request, Sent(items)).tables.items|
    ensures var t' := Persist(t, request, Sent(items)).tables;
            && t.items <= t'.items && y in items && TellsOf(t'.items[k], y)
            && exists f :: f in t'.feeds && f.id == t'.items[k].feed && f.url == y.sourceURL
  {
    var sent := Sent(items);
    var from := NewRowsAreItems(t, request, sent);
    var i := from[k - |t.items|];
    assert |t.items| + (k - |t.items|) == k;
    SentAt(items, i);
    y := items[i];
  }

  /** The row of a parsed item. */
  predicate TellsOfParsed(row: ItemRow, x: RssItem) {
    && row.columns.title == Some(x.title) && row.columns.source == Some(x.source)
    && row.columns.sourceURL == Some(x.sourceURL) && row.columns.link == Some(x.link)
    && row.columns.publishDate == Some(Dates.String(x.publishDate)) && row.columns.description == Some(x.description)
  }

  /** Every row that a verdict adds to the tables is, field by field, a cached item of one of its URLs or an item of the
      reader's answer with its date as text, under the feed of that item's URL; the rows that were there stay. */
  lemma RowsComeFromFeeds(t: Tables, request: nat, urls: seq<string>, shown: seq<CacheRead>,
                          reader: seq<string> -> Answer, items: seq<StoredItem>, k: nat)
    requires Persistence.Valid(t) && |shown| == |urls| && items == Judge(urls, shown, reader).items
    requires |t.items| <= k < |Persist(t, request, Sent(items)).tables.items|
    ensures var t' := Persist(t, request, Sent(items)).tables;
            && t.items <= t'.items
            && (exists f :: f in t'.feeds && f.id == t'.items[k].feed && Some(f.url) == t'.items[k].columns.sourceURL)
            && (|| (exists i, y :: 0 <= i < |urls| && shown[i].Some? && y in shown[i].value && TellsOf(t'.items[k], y))
                || exists x :: x in Asked(reader, Misses(urls, shown)).items && TellsOfParsed(t'.items[k], x))
  {
    var y := RowOfSent(t, request, items, k);
    CachedOrParsed(urls, shown, reader, y);
    if x :| x in Asked(reader, Misses(urls, shown)).items && Convert(x) == y {
      assert TellsOfParsed(Persist(t, request, Sent(items)).tables.items[k], x);
    }
  }

  /******* The queue path *******/

  /** A command's round trip: the worker processes it, the result job takes its message, and a second delivery of
      that message changes nothing. The request ends with the worker's status, the tables hold the verdict's items,
      the channel got the verdict once, and the cache and the job record are those of the verdict. */
  method CommandRoundTrip(
    store: RedisJobStore, cache: URLCache, redis: Redis, reader: seq<string> -> Answer, env: Processor.Environment,
      urls: seq<string>,
    request: FeedRequest, db: Database, channel: ResultJob.Channel)
    requires store.Valid() && cache.Valid() && Persistence.Valid(db.Contents())
    requires env.firstUpdate && env.finalUpdate && env.publish == Some(true)
    requires Open(request.row.status)
    requires Storable(Sent(Judge(urls, Looked(cache.Visible(), urls, redis.gets), reader).items))
    modifies store, cache, request, db, channel
    ensures var v := Judge(urls, Looked(old(cache.Visible()), urls, redis.gets), reader);
            && request.row == Row(old(request.row).job, StatusOf(v.status)) && Terminal(request.row.status)
            && request.row.status == (if v.status == "failed" then ResultStatus.Failed else Completed)
            && db.Contents() == Persist(old(db.Contents()), request.id, Sent(v.items)).tables
            && channel.sent == old(channel.sent)
              + [Message(request.id, StatusOf(v.status), Sent(v.items), Map(EntryOf, v.errors))]
            && store.data == old(store.data)["job:" + old(request.row).job :=
                 Doc(old(request.row).job, v.status, v.items, v.errors, v.error)]
    ensures cache.contents == if cache.hasClient then CacheAfter(old(cache.contents), urls, redis, reader)
        else old(cache.contents)
  {
    AnswersConclude(urls, Looked(cache.Visible(), urls, redis.gets), reader);
    var _, published := Processor.Process(store, cache, redis, reader, env, request.row.job, urls);
    var payload := PayloadOf(published.value);
    var _ := Work(payload, request, db, channel);
    var _ := Work(payload, request, db, channel);
  }

  /******* The fallback path *******/

  /** A result that arrives for a finished request is acknowledged and thrown away. */
  method LateResultIsDropped(
    store: RedisJobStore, cache: URLCache, redis: Redis, reader: seq<string> -> Answer, env: Processor.Environment,
      jobID: string, urls: seq<string>,
    request: FeedRequest, db: Database, channel: ResultJob.Channel)
    requires store.Valid() && cache.Valid() && Persistence.Valid(db.Contents())
    requires env.firstUpdate && env.finalUpdate && env.publish == Some(true)
    requires Terminal(request.row.status)
    modifies store, cache, request, db, channel
    ensures request.row == old(request.row) && db.Contents() == old(db.Contents()) && channel.sent == old(channel.sent)
  {
    var _, message := Processor.Process(store, cache, redis, reader, env, jobID, urls);
    var reply := Work(PayloadOf(message.value), request, db, channel);
  }

  /** What the publisher's fallback makes of an answer of the endpoint. */
  method TakeAnswer(resp: ParseHandler.Response, published: bool, request: FeedRequest, db: Database,
          channel: ResultJob.Channel)
    requires Persistence.Valid(db.Contents())
    requires resp.Completed? ==> Terminal(StatusOf(resp.verdict.status)) && Storable(Sent(resp.verdict.items))
    modifies request, db, channel
    ensures Persistence.Valid(db.Contents())
    ensures resp.Completed? ==>
              var v := resp.verdict;
              && request.row == Row(resp.id, StatusOf(v.status))
              && db.Contents() == Persist(old(db.Contents()), request.id, Sent(v.items)).tables
              && channel.sent == old(channel.sent)
                + [Message(request.id, StatusOf(v.status), Sent(v.items), Map(EntryOf, v.errors))]
    ensures resp.Accepted? ==>
              && request.row == Row(old(request.row).job, Failed)
              && db.Contents() == old(db.Contents())
              && channel.sent == old(channel.sent)
                + [Message(request.id, Failed, [], [Text(PublishJob.HTTP_FAILED + "202")])]
    ensures resp.BadRequest? ==>
              && request.row == Row(old(request.row).job, Failed)
              && db.Contents() == old(db.Contents())
              && channel.sent == old(channel.sent)
                + [Message(request.id, Failed, [], [Text(PublishJob.HTTP_FAILED + "400")])]
  {
    assert "202"[2] != "200"[2] && "400"[0] != "200"[0];
    PublishJob.Perform(request, db, channel, published, false, ReplyOf(resp));
  }

  /** When the publisher falls back while the service can still queue, the service answers 202 and queues the command
      itself. The request then ends failed and stays so: the worker's result is acknowledged and thrown away. */
  method QueuedFallbackFails(
    store: RedisJobStore, cache: URLCache, redis: Redis, reader: seq<string> -> Answer, urls: seq<string>,
    env: Processor.Environment, env': ParseHandler.Environment, newID: string,
    request: FeedRequest, db: Database, channel: ResultJob.Channel, published: bool)
    requires store.Valid() && cache.Valid() && Persistence.Valid(db.Contents()) && urls != []
    requires ParseHandler.Queued(false, env')
    requires env.firstUpdate && env.finalUpdate && env.publish == Some(true)
    modifies store, cache, request, db, channel
    ensures request.row == Row(old(request.row).job, Failed)
    ensures db.Contents() == old(db.Contents())
    ensures channel.sent == old(channel.sent)
        + [Message(request.id, Failed, [], [Text(PublishJob.HTTP_FAILED + "202")])]
  {
    var command := ParseHandler.Request(urls, request.row.job);
    var resp := ParseHandler.Parse(Some(command), newID, store, cache, redis, false, reader, env');
    TakeAnswer(resp, published, request, db, channel);
    LateResultIsDropped(store, cache, redis, reader, env, ParseHandler.JobID(command, newID), urls, request, db,
      channel);
  }

  /** The endpoint, asked while it cannot queue, answers with the verdict. */
  method AskEndpoint(store: RedisJobStore, cache: URLCache, redis: Redis, reader: seq<string> -> Answer,
          urls: seq<string>,
                     env': ParseHandler.Environment, newID: string, job: string)
    returns (resp: ParseHandler.Response)
    requires store.Valid() && cache.Valid() && urls != [] && job != "" && !ParseHandler.Queued(false, env')
    modifies store, cache
    ensures resp == ParseHandler.Completed(job, Judge(urls, Looked(old(cache.Visible()), urls, redis.gets), reader))
    ensures cache.contents == if cache.hasClient then CacheAfter(old(cache.contents), urls, redis, reader)
        else old(cache.contents)
  {
    resp := ParseHandler.Parse(Some(ParseHandler.Request(urls, job)), newID, store, cache, redis, false, reader, env');
  }

  /** When the service answers by itself, the fallback leaves the tables, the request and the channel as the queue
      would have. */
  method FallbackMatchesQueue(
    store: RedisJobStore, cache: URLCache, redis: Redis, reader: seq<string> -> Answer, urls: seq<string>,
    env': ParseHandler.Environment, newID: string,
    request: FeedRequest, db: Database, channel: ResultJob.Channel, published: bool)
    requires store.Valid() && cache.Valid() && Persistence.Valid(db.Contents()) && urls != []
    requires !ParseHandler.Queued(false, env') && request.row.job != ""
    requires Storable(Sent(Judge(urls, Looked(cache.Visible(), urls, redis.gets), reader).items))
    modifies store, cache, request, db, channel
    ensures var v := Judge(urls, Looked(old(cache.Visible()), urls, redis.gets), reader);
            && request.row == Row(old(request.row).job, StatusOf(v.status)) && Terminal(request.row.status)
            && request.row.status == (if v.status == "failed" then ResultStatus.Failed else Completed)
            && db.Contents() == Persist(old(db.Contents()), request.id, Sent(v.items)).tables
            && channel.sent == old(channel.sent)
              + [Message(request.id, StatusOf(v.status), Sent(v.items), Map(EntryOf, v.errors))]
    ensures cache.contents == if cache.hasClient then CacheAfter(old(cache.contents), urls, redis, reader)
        else old(cache.contents)
  {
    AnswersConclude(urls, Looked(cache.Visible(), urls, redis.gets), reader);
    var resp := AskEndpoint(store, cache, redis, reader, urls, env', newID, request.row.job);
    TakeAnswer(resp, published, request, db, channel);
  }

  /******* Items without a link *******/

  predicate LinklessOf(item: Item, url: string) {
    item.sourceURL == Some(url) && item.link == Some("")
  }

  /** How many items without a link a result has for a URL. */
  function LinklessIn(items: seq<Item>, url: string): nat {
    Tally((x: Item) => LinklessOf(x, url), items)
  }

  /** How many rows without a link the feed of a URL has. */
  function LinklessRows(t: Tables, url: string): nat {
    var feed := FindFeed(t.feeds, url);
    if feed.None? then 0
    else Tally((r: ItemRow) => r.feed == feed.value.id && r.columns.link == Some(""), t.items)
  }

  /** The unique index admits at most one such row, and there is one exactly if something is stored under the empty
      link. */
  lemma {:induction false} OneRowPerLink(rows: seq<ItemRow>, feed: nat)
    requires UniqueLinks(rows)
    ensures Tally((r: ItemRow) => r.feed == feed && r.columns.link == Some(""), rows)
        == One(FindItem(rows, feed, "").Some?)
  {
    if rows != [] {
      var n := |rows| - 1;
      OneRowPerLink(rows[..n], feed);
      TallyAppend((r: ItemRow) => r.feed == feed && r.columns.link == Some(""), rows[..n], rows[n]);
      assert rows == rows[..n] + [rows[n]];
      FindItemIsARow(rows[..n], feed, "");
    }
  }

  lemma {:induction false} LinklessExists(items: seq<Item>, url: string)
    ensures FirstOf(items, url, "").Some? <==> LinklessIn(items, url) > 0
  {
    if items != [] {
      var n := |items| - 1;
      LinklessExists(items[..n], url);
      TallyAppend((x: Item) => LinklessOf(x, url), items[..n], items[n]);
      assert items == items[..n] + [items[n]];
    }
  }

  /** The reader keeps every item without a link, but the tables keep one per feed: the one stored before, or the
      first. */
  lemma LinklessItemsCollapse(t: Tables, request: nat, items: seq<RssItem>, url: string)
    requires Persistence.Valid(t) && Storable(Sent(Converted(items)))
    ensures FeedItems.Linkless(Dedup(items)) == FeedItems.Linkless(items)
    ensures var sent := Sent(Converted(items));
            var after := Persist(t, request, sent).tables;
            && LinklessRows(after, url) == One(LinklessRows(t, url) > 0 || LinklessIn(sent, url) > 0)
            && Lookup(after, url, "") == Or(Lookup(t, url, ""), FirstOf(sent, url, ""))
  {
    var sent := Sent(Converted(items));
    var after := Persist(t, request, sent).tables;
    DedupKeeps(items);
    PersistKeepsRows(t, request, sent);
    FirstWins(t, request, sent, url, "");
    LinklessExists(sent, url);
    if FindFeed(t.feeds, url).Some? {
      OneRowPerLink(t.items, FindFeed(t.feeds, url).value.id);
    }
    if FindFeed(after.feeds, url).Some? {
      OneRowPerLink(after.items, FindFeed(after.feeds, url).value.id);
    }
  }

  /** Every item without a link of a URL gets its row exactly if there is none, or only one and none was stored
      before. */
  lemma LinklessItemsKeptExactly(t: Tables, request: nat, items: seq<RssItem>, url: string)
    requires Persistence.Valid(t) && Storable(Sent(Converted(items)))
    ensures var sent := Sent(Converted(items));
            LinklessRows(Persist(t, request, sent).tables, url) == LinklessRows(t, url) + LinklessIn(sent, url)
            <==> LinklessIn(sent, url) == 0 || (LinklessIn(sent, url) == 1 && Lookup(t, url, "").None?)
  {
    LinklessItemsCollapse(t, request, items, url);
    if FindFeed(t.feeds, url).Some? {
      OneRowPerLink(t.items, FindFeed(t.feeds, url).value.id);
    }
  }
}
