/**
 What processing a batch of URLs means, for the worker and for the synchronous endpoint alike:
 split by the cache, one call of the reader for the misses, hydration, and the final status.
 */
module Pipeline {
  import opened Base
  import Dates
  import opened FeedItems
  import opened JobStore
  import opened Reader
  import opened Sequences
  import opened UrlCache

  /** The error value of the reader: nothing, a list of URL errors, or some other error. */
  datatype ReaderError = NoError | PerURL(errs: seq<URLError>) | Other(message: string)

  datatype Answer = Answer(items: seq<RssItem>, err: ReaderError)

  function Convert(x: RssItem): StoredItem {
    StoredItem(x.title, x.source, x.sourceURL, x.link, Dates.String(x.publishDate), x.description)
  }

  function Converted(items: seq<RssItem>): seq<StoredItem> {
    Map(Convert, items)
  }

  /** What one read shows. */
  function LookAt(visible: Contents, url: string, answered: bool): CacheRead {
    if answered && url in visible then Some(visible[url]) else None
  }

  /** What the reads of a batch show if nobody else writes to the cache meanwhile. */
  function Looked(visible: Contents, urls: seq<string>, gets: nat -> bool): (shown: seq<CacheRead>)
    ensures |shown| == |urls|
  {
    if urls == [] then []
    else
      var n := |urls| - 1;
      Looked(visible, urls[..n], gets) + [LookAt(visible, urls[n], gets(n))]
  }

  /** The cached items of the hits, in the order of the URLs. */
  function Hits(shown: seq<CacheRead>): seq<StoredItem> {
    if shown == [] then []
    else
      var n := |shown| - 1;
      Hits(shown[..n]) + if shown[n].Some? then shown[n].value else []
  }

  function Misses(urls: seq<string>, shown: seq<CacheRead>): seq<string>
    requires |shown| == |urls|
  {
    if urls == [] then []
    else
      var n := |urls| - 1;
      Misses(urls[..n], shown[..n]) + if shown[n].Some? then [] else [urls[n]]
  }

  lemma OneMoreLook(urls: seq<string>, shown: seq<CacheRead>, u: string, look: CacheRead)
    requires |shown| == |urls|
    ensures Hits(shown + [look]) == Hits(shown) + if look.Some? then look.value else []
    ensures Misses(urls + [u], shown + [look]) == Misses(urls, shown) + if look.Some? then [] else [u]
  {
    assert (shown + [look])[..|shown|] == shown && (urls + [u])[..|urls|] == urls;
  }

  /** What the first `i + 1` reads of a batch add to the first `i`. */
  lemma LookStep(visible: Contents, urls: seq<string>, gets: nat -> bool, i: nat)
    requires i < |urls|
    ensures var before, after := Looked(visible, urls[..i], gets), Looked(visible, urls[..i + 1], gets);
            var look := LookAt(visible, urls[i], gets(i));
            && after == before + [look]
            && Hits(after) == Hits(before) + (if look.Some? then look.value else [])
            && Misses(urls[..i + 1], after) == Misses(urls[..i], before) + if look.Some? then [] else [urls[i]]
  {
    assert urls[..i + 1][..i] == urls[..i] && urls[..i + 1] == urls[..i] + [urls[i]];
    OneMoreLook(urls[..i], Looked(visible, urls[..i], gets), urls[i], LookAt(visible, urls[i], gets(i)));
  }

  function ToURLErr(e: URLError): URLErr {
    URLErr(e.url, ErrorText(e))
  }

  /** The errors a batch reports: one per URL error, or the other error once for every miss. */
  function Reported(misses: seq<string>, err: ReaderError): seq<URLErr> {
    match err
    case NoError => []
    case PerURL(errs) => Map(ToURLErr, errs)
    case Other(message) => Map(u => URLErr(u, message), misses)
  }

  predicate Failed(u: string, errs: seq<URLErr>) {
    exists i :: 0 <= i < |errs| && errs[i].url == u
  }

  /** The items of one URL among the parsed ones, in order. */
  function OfSource(items: seq<StoredItem>, u: string): seq<StoredItem> {
    if items == [] then []
    else
      var n := |items| - 1;
      OfSource(items[..n], u) + if items[n].sourceURL == u then [items[n]] else []
  }

  /** A map from the URLs to the items of each. */
  ghost predicate Groups(grouped: map<string, seq<StoredItem>>, items: seq<StoredItem>) {
    forall u :: OfSource(items, u) == if u in grouped then grouped[u] else []
  }

  /** The map with one more item in the group of its URL. */
  function Grown(grouped: map<string, seq<StoredItem>>, x: StoredItem): map<string, seq<StoredItem>> {
    grouped[x.sourceURL := (if x.sourceURL in grouped then grouped[x.sourceURL] else []) + [x]]
  }

  lemma GroupsGrow(grouped: map<string, seq<StoredItem>>, items: seq<StoredItem>, x: StoredItem)
    requires Groups(grouped, items)
    ensures Groups(Grown(grouped, x), items + [x])
  {
    forall u
      ensures OfSource(items + [x], u) == if u in Grown(grouped, x) then Grown(grouped, x)[u] else []
    {
      OfSourceAppend(items, x, u);
    }
  }

  lemma OfSourceAppend(items: seq<StoredItem>, x: StoredItem, u: string)
    ensures OfSource(items + [x], u) == if x.sourceURL == u then OfSource(items, u) + [x] else OfSource(items, u)
  {
    assert (items + [x])[..|items|] == items;
  }

  lemma ConvertedAppend(items: seq<RssItem>, i: nat)
    requires i < |items|
    ensures Converted(items[..i + 1]) == Converted(items[..i]) + [Convert(items[i])]
  {
    assert items[..i + 1] == items[..i] + [items[i]];
    ConvertedSnoc(items[..i], items[i]);
  }

  /** Hydration goes through the misses in order and overwrites the entry of each that has no error, if Redis takes
      the write. */
  ghost function Hydrated(
    before: Contents, misses: seq<string>, parsed: seq<StoredItem>, errs: seq<URLErr>, sets: nat -> bool
  ): Contents {
    if misses == [] then before
    else
      var n := |misses| - 1;
      var mid := Hydrated(before, misses[..n], parsed, errs, sets);
      if Failed(misses[n], errs) || !sets(n) then mid else mid[misses[n] := OfSource(parsed, misses[n])]
  }

  /** Redis takes the write of some occurrence of a URL. */
  predicate Taken(misses: seq<string>, u: string, sets: nat -> bool) {
    exists i :: 0 <= i < |misses| && misses[i] == u && sets(i)
  }

  /** Every miss without an error whose write is taken ends with exactly its own items, possibly none, however
      often it occurs; nothing else changes. */
  lemma {:induction false} HydratedAt(
    before: Contents, misses: seq<string>, parsed: seq<StoredItem>, errs: seq<URLErr>, sets: nat -> bool, u: string
  )
    ensures var after := Hydrated(before, misses, parsed, errs, sets);
            if Taken(misses, u, sets) && !Failed(u, errs) then u in after && after[u] == OfSource(parsed, u)
            else (u in after <==> u in before) && (u in before ==> after[u] == before[u])
  {
    if misses != [] {
      var n := |misses| - 1;
      HydratedAt(before, misses[..n], parsed, errs, sets, u);
      assert Taken(misses, u, sets) <==> Taken(misses[..n], u, sets) || (misses[n] == u && sets(n)) by {
        if Taken(misses, u, sets) {
          var i :| 0 <= i < |misses| && misses[i] == u && sets(i);
          assert i < n ==> misses[..n][i] == u;
        }
        if Taken(misses[..n], u, sets) {
          var i :| 0 <= i < n && misses[..n][i] == u && sets(i);
          assert misses[i] == u;
        }
      }
    }
  }

  datatype Verdict = Verdict(status: string, items: seq<StoredItem>, errors: seq<URLErr>, error: string)

  const ALL_FAILED := "all URLs failed"

  predicate AllFailed(urls: seq<string>, items: seq<StoredItem>, errs: seq<URLErr>) {
    |items| == 0 && |errs| >= |urls| && |urls| > 0
  }

  function Conclude(urls: seq<string>, items: seq<StoredItem>, errs: seq<URLErr>): Verdict {
    if AllFailed(urls, items, errs) then Verdict("failed", [], errs, ALL_FAILED)
    else Verdict("done", items, errs, "")
  }

  /** The answer that counts for a batch: the reader is not called when every URL is a hit. */
  function Asked(reader: seq<string> -> Answer, misses: seq<string>): Answer {
    if misses == [] then Answer([], NoError) else reader(misses)
  }

  /** The verdict on a batch, given what its reads of the cache showed and what the reader would answer. */
  function Judge(urls: seq<string>, shown: seq<CacheRead>, reader: seq<string> -> Answer): Verdict
    requires |shown| == |urls|
  {
    var misses := Misses(urls, shown);
    var answer := Asked(reader, misses);
    Conclude(urls, Hits(shown) + Converted(answer.items), Reported(misses, answer.err))
  }

  /** The contents of a cache with a client after a batch, if nobody else writes to it meanwhile. */
  ghost function CacheAfter(before: Contents, urls: seq<string>, redis: Redis,
          reader: seq<string> -> Answer): Contents {
    var misses := Misses(urls, Looked(before, urls, redis.gets));
    var answer := Asked(reader, misses);
    Hydrated(before, misses, Converted(answer.items), Reported(misses, answer.err), redis.sets)
  }

  /******* Where everything stands *******/

  /** What each read of an undisturbed batch shows. */
  lemma {:induction false} LookedAt(visible: Contents, urls: seq<string>, gets: nat -> bool, i: nat)
    requires i < |urls|
    ensures Looked(visible, urls, gets)[i] == if gets(i) && urls[i] in visible then Some(visible[urls[i]]) else None
  {
    var n := |urls| - 1;
    if i < n {
      LookedAt(visible, urls[..n], gets, i);
      assert Looked(visible, urls, gets)[i] == Looked(visible, urls[..n], gets)[i];
    }
  }

  lemma {:induction false} HitsByPosition(shown: seq<CacheRead>, hits: seq<seq<StoredItem>>)
    requires |hits| == |shown|
    requires forall i :: 0 <= i < |shown| ==> hits[i] == if shown[i].Some? then shown[i].value else []
    ensures LaidOut(Hits(shown), hits)
  {
    if shown != [] {
      var n := |shown| - 1;
      HitsByPosition(shown[..n], hits[..n]);
      LaidOutAppend(Hits(shown[..n]), hits[..n], hits[n]);
      assert hits == hits[..n] + [hits[n]];
    }
  }

  lemma {:induction false} MissesByPosition(urls: seq<string>, shown: seq<CacheRead>, missed: seq<seq<string>>)
    requires |missed| == |shown| == |urls|
    requires forall i :: 0 <= i < |urls| ==> missed[i] == if shown[i].Some? then [] else [urls[i]]
    ensures LaidOut(Misses(urls, shown), missed)
  {
    if urls != [] {
      var n := |urls| - 1;
      MissesByPosition(urls[..n], shown[..n], missed[..n]);
      LaidOutAppend(Misses(urls[..n], shown[..n]), missed[..n], missed[n]);
      assert missed == missed[..n] + [missed[n]];
    }
  }

  lemma {:induction false} OfSourceByPosition(items: seq<StoredItem>, u: string, blocks: seq<seq<StoredItem>>)
    requires |blocks| == |items|
    requires forall i :: 0 <= i < |items| ==> blocks[i] == if items[i].sourceURL == u then [items[i]] else []
    ensures LaidOut(OfSource(items, u), blocks)
  {
    if items != [] {
      var n := |items| - 1;
      OfSourceByPosition(items[..n], u, blocks[..n]);
      LaidOutAppend(OfSource(items[..n], u), blocks[..n], blocks[n]);
      assert blocks == blocks[..n] + [blocks[n]];
    }
  }

  /** A hit stands where the earlier hits end. */
  lemma InPlaceInLonger(whole: seq<StoredItem>, more: seq<StoredItem>, blocks: seq<seq<StoredItem>>, k: nat)
    requires LaidOut(whole, blocks) && k < |blocks|
    ensures InPlace(whole + more, blocks, k)
  {
    assert InPlace(whole, blocks, k);
    StandsInLonger(blocks[k], whole, more, Start(blocks, k));
  }

  /** The reported errors, one after the other. */
  lemma ReportedByPosition(misses: seq<string>, err: ReaderError)
    ensures var errors := Reported(misses, err);
            match err
            case NoError => errors == []
            case PerURL(errs) =>
              |errors| == |errs| && forall k :: 0 <= k < |errs| ==>
                errors[k].url == errs[k].url && errors[k].error == errs[k].url + ": " + errs[k].err
            case Other(message) =>
              |errors| == |misses| && forall k :: 0 <= k < |misses| ==>
                errors[k].url == misses[k] && errors[k].error == message
  {
    match err
    case NoError =>
    case PerURL(errs) => MapAt(ToURLErr, errs);
    case Other(message) => MapAt(u => URLErr(u, message), misses);
  }

  /** Converting keeps every field; the date becomes its text. */
  lemma ConvertedByPosition(cached: seq<StoredItem>, parsed: seq<RssItem>)
    ensures |cached + Converted(parsed)| == |cached| + |parsed|
    ensures forall j :: 0 <= j < |parsed| ==>
              var x, y := parsed[j], (cached + Converted(parsed))[|cached| + j];
              && y.title == x.title && y.source == x.source && y.sourceURL == x.sourceURL && y.link == x.link
              && y.description == x.description && y.publishDate == Dates.String(x.publishDate)
  {
    MapAt(Convert, parsed);
    forall j | 0 <= j < |parsed|
      ensures (cached + Converted(parsed))[|cached| + j] == Convert(parsed[j])
    {
      assert (cached + Converted(parsed))[|cached| + j] == Converted(parsed)[j];
    }
  }

  lemma HitsComeFirst(shown: seq<CacheRead>, hits: seq<seq<StoredItem>>, parsed: seq<RssItem>)
    requires |hits| == |shown|
    requires forall i :: 0 <= i < |shown| ==> hits[i] == if shown[i].Some? then shown[i].value else []
    ensures |Hits(shown)| == Start(hits, |hits|)
    ensures forall i :: 0 <= i < |hits| ==> InPlace(Hits(shown) + Converted(parsed), hits, i)
  {
    HitsByPosition(shown, hits);
    forall i | 0 <= i < |hits|
      ensures InPlace(Hits(shown) + Converted(parsed), hits, i)
    {
      InPlaceInLonger(Hits(shown), Converted(parsed), hits, i);
    }
  }

  lemma JudgedBy(urls: seq<string>, shown: seq<CacheRead>, reader: seq<string> -> Answer, missed: seq<seq<string>>,
                 misses: seq<string>, answer: Answer)
    requires |missed| == |shown| == |urls|
    requires forall i :: 0 <= i < |urls| ==> missed[i] == if shown[i].Some? then [] else [urls[i]]
    requires LaidOut(misses, missed) && answer == if misses == [] then Answer([], NoError) else reader(misses)
    ensures Judge(urls, shown, reader)
         == Conclude(urls, Hits(shown) + Converted(answer.items), Reported(misses, answer.err))
  {
    MissesByPosition(urls, shown, missed);
    LaidOutIsUnique(misses, Misses(urls, shown), missed);
  }

  /** The verdict, position by position. The misses are the URLs whose read showed nothing, in order, and the reader is
      asked for them if there are any. A batch is done unless it has no item and an error for each of its URLs. Then its
      items are the cached ones, each hit where the earlier hits end, followed by the answer's, field by field. */
  lemma VerdictByPosition(urls: seq<string>, shown: seq<CacheRead>, reader: seq<string> -> Answer,
                          hits: seq<seq<StoredItem>>, missed: seq<seq<string>>, misses: seq<string>, answer: Answer)
    requires |hits| == |missed| == |shown| == |urls|
    requires forall i :: 0 <= i < |urls| ==> hits[i] == if shown[i].Some? then shown[i].value else []
    requires forall i :: 0 <= i < |urls| ==> missed[i] == if shown[i].Some? then [] else [urls[i]]
    requires LaidOut(misses, missed) && answer == if misses == [] then Answer([], NoError) else reader(misses)
    ensures var v, cached := Judge(urls, shown, reader), Start(hits, |hits|);
            if cached + |answer.items| == 0 && |urls| > 0 && |v.errors| >= |urls|
            then v.status == "failed" && v.items == [] && v.error == "all URLs failed"
            else v.status == "done" && v.error == "" && |v.items| == cached + |answer.items|
    ensures var v := Judge(urls, shown, reader);
            v.status == "done" ==> forall i :: 0 <= i < |urls| ==> InPlace(v.items, hits, i)
    ensures var v, cached := Judge(urls, shown, reader), Start(hits, |hits|);
            v.status == "done" ==>
              forall j :: 0 <= j < |answer.items| ==>
                var x, y := answer.items[j], v.items[cached + j];
                && y.title == x.title && y.source == x.source && y.sourceURL == x.sourceURL && y.link == x.link
                && y.description == x.description && y.publishDate == Dates.String(x.publishDate)
  {
    JudgedBy(urls, shown, reader, missed, misses, answer);
    HitsComeFirst(shown, hits, answer.items);
    ConvertedByPosition(Hits(shown), answer.items);
  }

  /** The errors of the verdict: those of the answer in order, each with its URL and its text after the URL, or an error
      of another kind once for every miss. */
  lemma ErrorsByPosition(urls: seq<string>, shown: seq<CacheRead>, reader: seq<string> -> Answer,
                         missed: seq<seq<string>>, misses: seq<string>, answer: Answer)
    requires |missed| == |shown| == |urls|
    requires forall i :: 0 <= i < |urls| ==> missed[i] == if shown[i].Some? then [] else [urls[i]]
    requires LaidOut(misses, missed) && answer == if misses == [] then Answer([], NoError) else reader(misses)
    ensures var errors := Judge(urls, shown, reader).errors;
            match answer.err
            case NoError => errors == []
            case PerURL(errs) =>
              |errors| == |errs| && forall k :: 0 <= k < |errs| ==>
                errors[k].url == errs[k].url && errors[k].error == errs[k].url + ": " + errs[k].err
            case Other(message) =>
              |errors| == |misses| && forall k :: 0 <= k < |misses| ==>
                errors[k].url == misses[k] && errors[k].error == message
  {
    JudgedBy(urls, shown, reader, missed, misses, answer);
    ReportedByPosition(misses, answer.err);
  }

  /** The parsed items of one URL, in order. */
  function ParsedOf(items: seq<RssItem>, u: string): seq<RssItem> {
    if items == [] then []
    else
      var n := |items| - 1;
      ParsedOf(items[..n], u) + if items[n].sourceURL == u then [items[n]] else []
  }

  lemma {:induction false} ParsedOfByPosition(items: seq<RssItem>, u: string, blocks: seq<seq<RssItem>>)
    requires |blocks| == |items|
    requires forall i :: 0 <= i < |items| ==> blocks[i] == if items[i].sourceURL == u then [items[i]] else []
    ensures LaidOut(ParsedOf(items, u), blocks)
  {
    if items != [] {
      var n := |items| - 1;
      ParsedOfByPosition(items[..n], u, blocks[..n]);
      LaidOutAppend(ParsedOf(items[..n], u), blocks[..n], blocks[n]);
      assert blocks == blocks[..n] + [blocks[n]];
    }
  }

  lemma ConvertedSnoc(items: seq<RssItem>, x: RssItem)
    ensures Converted(items + [x]) == Converted(items) + [Convert(x)]
  {
    MapConcat(Convert, items, [x]);
    assert [x][1..] == [];
  }

  lemma ConvertedOfMore(items: seq<RssItem>, x: RssItem, u: string)
    requires OfSource(Converted(items), u) == Converted(ParsedOf(items, u))
    ensures OfSource(Converted(items + [x]), u) == Converted(ParsedOf(items + [x], u))
  {
    ConvertedSnoc(items, x);
    OfSourceAppend(Converted(items), Convert(x), u);
    ConvertedSnoc(ParsedOf(items, u), x);
    assert (items + [x])[..|items|] == items;
    if x.sourceURL == u {
      assert ParsedOf(items + [x], u) == ParsedOf(items, u) + [x];
    } else {
      assert ParsedOf(items + [x], u) == ParsedOf(items, u) + [] == ParsedOf(items, u);
    }
  }

  lemma {:induction false} ConvertedOfPrefix(items: seq<RssItem>, u: string, k: nat)
    requires k <= |items|
    ensures OfSource(Converted(items[..k]), u) == Converted(ParsedOf(items[..k], u))
  {
    if k > 0 {
      ConvertedOfPrefix(items, u, k - 1);
      ConvertedOfMore(items[..k - 1], items[k - 1], u);
      assert items[..k] == items[..k - 1] + [items[k - 1]];
    }
  }

  lemma ConvertedOf(items: seq<RssItem>, u: string)
    ensures OfSource(Converted(items), u) == Converted(ParsedOf(items, u))
  {
    ConvertedOfPrefix(items, u, |items|);
    assert items[..|items|] == items;
  }

  /** The cache after a batch, URL by URL. A missed URL with a write that Redis takes, and without an error of its own,
      ends with the answer's items of that URL, in order and field by field; every other entry is as before. */
  lemma CacheAfterByUrl(before: Contents, urls: seq<string>, redis: Redis, reader: seq<string> -> Answer,
                        missed: seq<seq<string>>, misses: seq<string>, answer: Answer,
                        u: string, blocks: seq<seq<RssItem>>, own: seq<RssItem>)
    requires |missed| == |urls|
    requires forall i :: 0 <= i < |urls| ==>
               missed[i] == if redis.gets(i) && urls[i] in before then [] else [urls[i]]
    requires LaidOut(misses, missed) && answer == if misses == [] then Answer([], NoError) else reader(misses)
    requires |blocks| == |answer.items| && LaidOut(own, blocks)
    requires forall i :: 0 <= i < |blocks| ==>
               blocks[i] == if answer.items[i].sourceURL == u then [answer.items[i]] else []
    ensures var after := CacheAfter(before, urls, redis, reader);
            if (exists k :: 0 <= k < |misses| && misses[k] == u && redis.sets(k))
               && !answer.err.Other? && (answer.err.PerURL? ==> forall e :: e in answer.err.errs ==> e.url != u)
            then u in after && |after[u]| == |own| && forall j :: 0 <= j < |own| ==>
                 var x, y := own[j], after[u][j];
                 && y.title == x.title && y.source == x.source && y.sourceURL == x.sourceURL && y.link == x.link
                 && y.description == x.description && y.publishDate == Dates.String(x.publishDate)
            else (u in after <==> u in before) && (u in before ==> after[u] == before[u])
  {
    var shown := Looked(before, urls, redis.gets);
    forall i | 0 <= i < |urls|
      ensures missed[i] == if shown[i].Some? then [] else [urls[i]]
    {
      LookedAt(before, urls, redis.gets, i);
    }
    MissesByPosition(urls, shown, missed);
    LaidOutIsUnique(misses, Misses(urls, shown), missed);
    ParsedOfByPosition(answer.items, u, blocks);
    LaidOutIsUnique(own, ParsedOf(answer.items, u), blocks);
    ConvertedOf(answer.items, u);
    MapAt(Convert, own);
    HydratedAt(before, misses, Converted(answer.items), Reported(misses, answer.err), redis.sets, u);
    FailedExactly(misses, answer.err, u);
  }

  lemma FailedExactly(misses: seq<string>, err: ReaderError, u: string)
    ensures Failed(u, Reported(misses, err)) <==>
            (err.PerURL? && exists e :: e in err.errs && e.url == u) || (err.Other? && u in misses)
  {
    ReportedByPosition(misses, err);
    var errors := Reported(misses, err);
    if err.PerURL? && exists e :: e in err.errs && e.url == u {
      var e :| e in err.errs && e.url == u;
      var i :| 0 <= i < |err.errs| && err.errs[i] == e;
      assert errors[i].url == u;
    }
    if err.Other? && u in misses {
      var i :| 0 <= i < |misses| && misses[i] == u;
      assert errors[i].url == u;
    }
  }

  function DocOf(id: string, v: Verdict): Doc {
    Doc(id, v.status, v.items, v.errors, v.error)
  }

  method ToSlice<T>(elems: seq<T>) returns (s: Slice?<T>)
    ensures s == null <==> elems == []
    ensures s != null ==> fresh(s) && s.elems == elems
  {
    if elems == [] {
      return null;
    }
    s := new Slice(elems);
  }
}
