/**
 The URL cache under any number of batches at once: deliveries of the worker and requests to the endpoint
 read it URL by URL, fetch what they missed, and write it URL by URL; every read and every write is a step
 of its own that Redis may refuse, and entries expire at any moment.
 */
module CacheRuns {
  import opened Base
  import opened CacheSoundness
  import opened FeedItems
  import opened JobStore
  import opened Pipeline
  import opened Reader
  import opened Sequences
  import opened UrlCache

  /** What a batch got back from the reader: the results of its fetches, the order in which they arrived, and the
      answer. */
  datatype Fetch = Fetch(results: seq<FetchResult>, received: seq<FetchResult>, answer: Answer)

  /** How far a batch is: what its reads showed so far, what it fetched, and how many misses it has hydrated. */
  datatype Batch = Batch(urls: seq<string>, shown: seq<CacheRead>, fetch: Option<Fetch>, hydrated: nat)

  /** What a URL's own occurrences gave in the batch that wrote its entry, and whether another URL of that batch
      gave an item with one of their links. */
  datatype Origin = Origin(feed: seq<RssItem>, shared: bool)

  /** The cache; `origins` is history, the origin of each entry ever written. */
  datatype State = State(contents: Contents, origins: map<string, Origin>, batches: seq<Batch>)

  datatype Step =
    | Start(urls: seq<string>)
    | Look(b: nat, answered: bool)
    | Parse(b: nat, fetch: Fetch)
    | Write(b: nat, taken: bool)
    | Expire(url: string)

  const EMPTY := State(map[], map[], [])

  predicate Reading(b: Batch) {
    |b.shown| < |b.urls|
  }

  /** The misses of a batch that has read all its URLs. */
  function MissesOf(b: Batch): seq<string> {
    if |b.shown| == |b.urls| then Misses(b.urls, b.shown) else []
  }

  predicate Writing(b: Batch) {
    |b.shown| == |b.urls| && b.fetch.Some? && b.hydrated < |MissesOf(b)|
  }

  predicate Finished(b: Batch) {
    |b.shown| == |b.urls| && (MissesOf(b) == [] || (b.fetch.Some? && b.hydrated == |MissesOf(b)|))
  }

  ghost predicate Meets(misses: seq<string>, f: Fetch) {
    Answers(misses, f.results, f.received, f.answer)
  }

  ghost predicate Enabled(s: State, e: Step) {
    match e
    case Start(_) => true
    case Look(b, _) => b < |s.batches| && Reading(s.batches[b])
    case Parse(b, f) =>
      && b < |s.batches| && |s.batches[b].shown| == |s.batches[b].urls| && s.batches[b].fetch.None?
      && MissesOf(s.batches[b]) != [] && Meets(MissesOf(s.batches[b]), f)
    case Write(b, _) => b < |s.batches| && Writing(s.batches[b])
    case Expire(_) => true
  }

  function OriginOf(f: Fetch, u: string): Origin {
    Origin(OwnFeed(f.received, u), Shared(f.received, u))
  }

  function ErrorsIn(misses: seq<string>, f: Fetch): seq<URLErr> {
    Reported(misses, f.answer.err)
  }

  /** The next miss of a batch is hydrated, unless it has an error or Redis refuses. */
  function Written(s: State, b: Batch, taken: bool): State
    requires Writing(b)
  {
    var u, f := MissesOf(b)[b.hydrated], b.fetch.value;
    if Failed(u, ErrorsIn(MissesOf(b), f)) || !taken then s
    else
      s.(contents := s.contents[u := OfSource(Converted(f.answer.items), u)],
         origins := s.origins[u := OriginOf(f, u)])
  }

  ghost function Apply(s: State, e: Step): State
    requires Enabled(s, e)
  {
    if e.Start? then s.(batches := s.batches + [Batch(e.urls, [], None, 0)])
    else if e.Look? then
      var b := s.batches[e.b];
      s.(batches := s.batches[e.b := b.(shown := b.shown + [LookAt(s.contents, b.urls[|b.shown|], e.answered)])])
    else if e.Parse? then s.(batches := s.batches[e.b := s.batches[e.b].(fetch := Some(e.fetch))])
    else if e.Write? then
      var b := s.batches[e.b];
      Written(s, b, e.taken).(batches := s.batches[e.b := b.(hydrated := b.hydrated + 1)])
    else s.(contents := s.contents - {e.url})
  }

  ghost predicate Legal(s: State, es: seq<Step>)
    decreases |es|
  {
    es == [] || (Enabled(s, es[0]) && Legal(Apply(s, es[0]), es[1..]))
  }

  ghost function Final(s: State, es: seq<Step>): State
    requires Legal(s, es)
    decreases |es|
  {
    if es == [] then s else Final(Apply(s, es[0]), es[1..])
  }

  ghost predicate Reachable(s: State) {
    exists es :: Legal(EMPTY, es) && Final(EMPTY, es) == s
  }

  /******* The invariant *******/

  /** An entry is about its own URL, within what its feed alone gave when it was written, and all of that if no
      link was shared. */
  ghost predicate SoundEntry(u: string, entry: seq<StoredItem>, origin: Origin) {
    && (forall y :: y in entry ==> y.sourceURL == u && y in Converted(Dedup(origin.feed)))
    && (!origin.shared ==> forall y :: y in Converted(Dedup(origin.feed)) ==> y in entry)
  }

  ghost predicate Sound(s: State, u: string) {
    u in s.contents ==> u in s.origins && SoundEntry(u, s.contents[u], s.origins[u])
  }

  /** What a batch was shown was some sound entry of the URL it asked for. */
  ghost predicate HonestLook(u: string, look: CacheRead) {
    look.Some? ==> exists origin :: SoundEntry(u, look.value, origin)
  }

  ghost predicate HonestBatch(b: Batch) {
    && |b.shown| <= |b.urls|
    && (forall i :: 0 <= i < |b.shown| ==> HonestLook(b.urls[i], b.shown[i]))
    && (b.fetch.Some? ==> |b.shown| == |b.urls| && Meets(MissesOf(b), b.fetch.value))
  }

  /** A batch fetched the URL as one of its misses, with this origin. */
  predicate Gave(b: Batch, u: string, origin: Origin) {
    b.fetch.Some? && u in MissesOf(b) && origin == OriginOf(b.fetch.value, u)
  }

  /** Every entry ever written was written by a batch. */
  predicate Attributed(s: State) {
    forall u :: u in s.origins ==> exists i :: 0 <= i < |s.batches| && Gave(s.batches[i], u, s.origins[u])
  }

  ghost predicate Inv(s: State) {
    && (forall u :: u in s.contents ==> Sound(s, u))
    && (forall i :: 0 <= i < |s.batches| ==> HonestBatch(s.batches[i]))
  }

  /** The entry that a batch writes is sound. */
  lemma WriteIsSound(misses: seq<string>, f: Fetch, u: string)
    requires Meets(misses, f)
    ensures SoundEntry(u, OfSource(Converted(f.answer.items), u), OriginOf(f, u))
  {
    TaggedPermutation(f.results, f.received);
    EntryIsWithinOwn(f.received, f.answer.items, u);
  }

  lemma LookKeepsInv(s: State, e: Step)
    requires Inv(s) && Enabled(s, e) && e.Look?
    ensures Inv(Apply(s, e))
  {
    var b, b' := s.batches[e.b], Apply(s, e).batches[e.b];
    assert HonestBatch(b) && b.fetch.None?;
    var u := b.urls[|b.shown|];
    if u in s.contents {
      assert Sound(s, u);
    }
    assert HonestLook(u, LookAt(s.contents, u, e.answered));
    assert HonestBatch(b');
    forall u | u in s.contents
      ensures Sound(Apply(s, e), u)
    {
      assert Sound(s, u);
    }
  }

  lemma WriteKeepsInv(s: State, e: Step)
    requires Inv(s) && Enabled(s, e) && e.Write?
    ensures Inv(Apply(s, e))
  {
    var b, t := s.batches[e.b], Apply(s, e);
    var misses := MissesOf(b);
    var u := misses[b.hydrated];
    assert HonestBatch(b) && u in misses;
    if !Failed(u, ErrorsIn(misses, b.fetch.value)) && e.taken {
      WriteIsSound(misses, b.fetch.value, u);
    }
    forall v | v in t.contents
      ensures Sound(t, v)
    {
      assert v != u ==> Sound(s, v);
      assert v in s.contents ==> Sound(s, v);
    }
    assert HonestBatch(t.batches[e.b]);
  }

  lemma OtherKeepsInv(s: State, e: Step)
    requires Inv(s) && Enabled(s, e) && !e.Look? && !e.Write?
    ensures Inv(Apply(s, e))
  {
    var t := Apply(s, e);
    forall v | v in t.contents
      ensures Sound(t, v)
    {
      assert Sound(s, v);
    }
    if e.Parse? {
      assert HonestBatch(s.batches[e.b]);
      assert MissesOf(t.batches[e.b]) == MissesOf(s.batches[e.b]);
      assert HonestBatch(t.batches[e.b]);
    }
  }

  /** A batch that gave an entry still did after any step. */
  lemma StepKeepsBatches(s: State, e: Step, i: nat, u: string, origin: Origin)
    requires Inv(s) && Enabled(s, e) && i < |s.batches| && Gave(s.batches[i], u, origin)
    ensures i < |Apply(s, e).batches| && Gave(Apply(s, e).batches[i], u, origin)
  {
    assert HonestBatch(s.batches[i]);
  }

  lemma StepAttributes(s: State, e: Step)
    requires Inv(s) && Attributed(s) && Enabled(s, e)
    ensures Attributed(Apply(s, e))
  {
    var t := Apply(s, e);
    forall u | u in t.origins
      ensures exists i :: 0 <= i < |t.batches| && Gave(t.batches[i], u, t.origins[u])
    {
      if u in s.origins && t.origins[u] == s.origins[u] {
        var i :| 0 <= i < |s.batches| && Gave(s.batches[i], u, s.origins[u]);
        StepKeepsBatches(s, e, i, u, s.origins[u]);
      } else {
        assert Gave(s.batches[e.b], u, t.origins[u]);
        StepKeepsBatches(s, e, e.b, u, t.origins[u]);
      }
    }
  }

  lemma {:induction false} RunAttributes(s: State, es: seq<Step>)
    requires Inv(s) && Attributed(s) && Legal(s, es)
    ensures Attributed(Final(s, es))
    decreases |es|
  {
    if es != [] {
      StepAttributes(s, es[0]);
      StepKeepsInv(s, es[0]);
      RunAttributes(Apply(s, es[0]), es[1..]);
    }
  }

  lemma StepKeepsInv(s: State, e: Step)
    requires Inv(s) && Enabled(s, e)
    ensures Inv(Apply(s, e))
  {
    if e.Look? {
      LookKeepsInv(s, e);
    } else if e.Write? {
      WriteKeepsInv(s, e);
    } else {
      OtherKeepsInv(s, e);
    }
  }

  lemma {:induction false} RunKeepsInv(s: State, es: seq<Step>)
    requires Inv(s) && Legal(s, es)
    ensures Inv(Final(s, es))
    decreases |es|
  {
    if es != [] {
      StepKeepsInv(s, es[0]);
      RunKeepsInv(Apply(s, es[0]), es[1..]);
    }
  }

  /** In every reachable state, however batches, refusals and expiries interleave: an entry was written by a batch that
      missed its URL; it is about its own URL, holds only items that the URL's own occurrences gave alone in that batch,
      and all of them if no other URL of that batch gave one of their links. */
  lemma CacheIsSoundAlongRuns(s: State, u: string) returns (i: nat)
    requires Reachable(s) && u in s.contents
    ensures i < |s.batches| && s.batches[i].fetch.Some? && u in MissesOf(s.batches[i])
    ensures var entry, received := s.contents[u], s.batches[i].fetch.value.received;
            && (forall y :: y in entry ==> y.sourceURL == u && y in Converted(Dedup(OwnFeed(received, u))))
            && (!Shared(received, u) ==> forall y :: y in Converted(Dedup(OwnFeed(received, u))) ==> y in entry)
  {
    var es :| Legal(EMPTY, es) && Final(EMPTY, es) == s;
    RunKeepsInv(EMPTY, es);
    RunAttributes(EMPTY, es);
    assert Sound(s, u);
    i :| i < |s.batches| && Gave(s.batches[i], u, s.origins[u]);
  }

  /** An entry that has expired is a miss for the next read of its URL, and for that URL only. */
  lemma ExpiredIsAMiss(s: State, u: string, b: nat)
    requires b < |s.batches| && Reading(s.batches[b])
    ensures var batch := s.batches[b];
            var url := batch.urls[|batch.shown|];
            && Legal(s, [Expire(u), Look(b, true)])
            && b < |Final(s, [Expire(u), Look(b, true)]).batches|
            && Final(s, [Expire(u), Look(b, true)]).batches[b].shown
               == batch.shown + [if url != u && url in s.contents then Some(s.contents[url]) else None]
  {
    OneStep(s, Expire(u));
    Then(s, [Expire(u)], Look(b, true));
    assert [Expire(u)] + [Look(b, true)] == [Expire(u), Look(b, true)];
  }

  /** The verdict of a batch that has read all its URLs and fetched its misses, if any. */
  function VerdictOf(b: Batch): Verdict
    requires |b.shown| == |b.urls|
  {
    Judge(b.urls, b.shown, _ => if b.fetch.Some? then b.fetch.value.answer else Answer([], NoError))
  }

  /** A finished batch, whatever happened meanwhile, is accounted for: its occurrences are hits, reported errors
      and successful fetches; it failed exactly if there was no hit and every fetch failed; and every item it was
      shown is of the URL it asked for. */
  lemma FinishedBatches(s: State, i: nat)
    requires Reachable(s) && i < |s.batches| && Finished(s.batches[i])
    ensures var b := s.batches[i];
            var results := if MissesOf(b) == [] then [] else b.fetch.value.results;
            && |b.urls| == Tally(IsHit, b.shown) + |VerdictOf(b).errors| + Successes(results)
            && (VerdictOf(b).status == "failed" <==>
                  && b.urls != [] && (forall look :: look in b.shown ==> look.None?)
                  && (forall r :: r in results ==> r.outcome.FetchFailed?))
            && (forall j :: 0 <= j < |b.urls| && b.shown[j].Some? ==> forall y :: y in b.shown[j].value ==>
              y.sourceURL == b.urls[j])
  {
    var es :| Legal(EMPTY, es) && Final(EMPTY, es) == s;
    RunKeepsInv(EMPTY, es);
    var b := s.batches[i];
    var misses := MissesOf(b);
    assert HonestBatch(b);
    var reader := _ => if b.fetch.Some? then b.fetch.value.answer else Answer([], NoError);
    if misses == [] {
      NothingAsked();
      StatusMeaning(b.urls, b.shown, reader, [], []);
      Accounting(b.urls, b.shown, reader, [], []);
    } else {
      var f := b.fetch.value;
      StatusMeaning(b.urls, b.shown, reader, f.results, f.received);
      Accounting(b.urls, b.shown, reader, f.results, f.received);
    }
    forall j | 0 <= j < |b.urls| && b.shown[j].Some?
      ensures forall y :: y in b.shown[j].value ==> y.sourceURL == b.urls[j]
    {
      assert HonestLook(b.urls[j], b.shown[j]);
    }
  }

  /** What a batch fetched answers its own misses. */
  lemma FetchIsMet(s: State, i: nat)
    requires Reachable(s) && i < |s.batches| && s.batches[i].fetch.Some?
    ensures |s.batches[i].shown| == |s.batches[i].urls| && Meets(MissesOf(s.batches[i]), s.batches[i].fetch.value)
  {
    var es :| Legal(EMPTY, es) && Final(EMPTY, es) == s;
    RunKeepsInv(EMPTY, es);
    assert HonestBatch(s.batches[i]);
  }

  lemma NothingAsked()
    ensures Answers([], [], [], Answer([], NoError))
  {
    assert AllItems([]) == [] && Dedup([]) == [] && AllErrors([]) == [];
  }

  /******* An undisturbed batch *******/

  lemma {:induction false} Then(s: State, es: seq<Step>, e: Step)
    requires Legal(s, es) && Enabled(Final(s, es), e)
    ensures Legal(s, es + [e]) && Final(s, es + [e]) == Apply(Final(s, es), e)
    decreases |es|
  {
    if es == [] {
      assert [e][1..] == [];
    } else {
      assert (es + [e])[0] == es[0] && (es + [e])[1..] == es[1..] + [e];
      Then(Apply(s, es[0]), es[1..], e);
    }
  }

  lemma {:induction false} Compose(s: State, es: seq<Step>, more: seq<Step>)
    requires Legal(s, es) && Legal(Final(s, es), more)
    ensures Legal(s, es + more) && Final(s, es + more) == Final(Final(s, es), more)
    decreases |es|
  {
    if es == [] {
      assert es + more == more;
    } else {
      assert (es + more)[0] == es[0] && (es + more)[1..] == es[1..] + more;
      Compose(Apply(s, es[0]), es[1..], more);
    }
  }

  /** The first `k` reads of a fresh batch that nobody disturbs. */
  lemma {:induction false} Looks(s: State, b: nat, gets: nat -> bool, k: nat) returns (es: seq<Step>)
    requires b < |s.batches| && k <= |s.batches[b].urls| && s.batches[b] == Batch(s.batches[b].urls, [], None, 0)
    ensures var urls := s.batches[b].urls;
            && Legal(s, es)
            && Final(s, es) == s.(batches := s.batches[b := Batch(urls, Looked(s.contents, urls[..k], gets), None, 0)])
  {
    var urls := s.batches[b].urls;
    if k == 0 {
      es := [];
    } else {
      es := Looks(s, b, gets, k - 1);
      var e := Look(b, gets(k - 1));
      Then(s, es, e);
      assert urls[..k][..k - 1] == urls[..k - 1];
      es := es + [e];
    }
  }

  /** The first `k` writes of a batch that nobody disturbs. */
  lemma {:induction false} Writes(s: State, b: nat, sets: nat -> bool, k: nat) returns (es: seq<Step>)
    requires b < |s.batches| && |s.batches[b].shown| == |s.batches[b].urls|
    requires s.batches[b].fetch.Some? && s.batches[b].hydrated == 0 && k <= |MissesOf(s.batches[b])|
    ensures Legal(s, es)
    ensures var misses, f := MissesOf(s.batches[b]), s.batches[b].fetch.value;
            && Final(s, es).batches == s.batches[b := s.batches[b].(hydrated := k)]
            && Final(s, es).contents == Hydrated(s.contents, misses[..k], Converted(f.answer.items),
              ErrorsIn(misses, f), sets)
  {
    var misses := MissesOf(s.batches[b]);
    if k == 0 {
      es := [];
    } else {
      es := Writes(s, b, sets, k - 1);
      var e, t := Write(b, sets(k - 1)), Final(s, es);
      assert MissesOf(t.batches[b]) == misses;
      Then(s, es, e);
      assert misses[..k][..k - 1] == misses[..k - 1];
      es := es + [e];
    }
  }

  /** A batch that runs alone is a run of the machine: it ends with the verdict, and leaves the cache, that the
      worker and the endpoint are specified with. */
  lemma UndisturbedBatch(s: State, urls: seq<string>, redis: Redis, reader: seq<string> -> Answer, f: Fetch)
    returns (es: seq<Step>)
    requires var misses := Misses(urls, Looked(s.contents, urls, redis.gets));
             misses != [] ==> Meets(misses, f) && f.answer == reader(misses)
    ensures Legal(s, es) && |Final(s, es).batches| == |s.batches| + 1
    ensures var b := Final(s, es).batches[|s.batches|];
            Finished(b) && VerdictOf(b) == Judge(urls, Looked(s.contents, urls, redis.gets), reader)
    ensures Final(s, es).contents == CacheAfter(s.contents, urls, redis, reader)
  {
    var i, n := |s.batches|, |urls|;
    var shown := Looked(s.contents, urls, redis.gets);
    var misses := Misses(urls, shown);
    OneStep(s, Start(urls));
    var s1 := Apply(s, Start(urls));
    var looks := Looks(s1, i, redis.gets, n);
    assert urls[..n] == urls;
    var s2 := Final(s1, looks);
    Compose(s, [Start(urls)], looks);
    es := [Start(urls)] + looks;
    assert s2.batches[i] == Batch(urls, shown, None, 0) && s2.contents == s.contents;
    if misses != [] {
      var parse := Step.Parse(i, f);
      Then(s, es, parse);
      es := es + [parse];
      var s3 := Final(s, es);
      var writes := Writes(s3, i, redis.sets, |misses|);
      assert misses[..|misses|] == misses;
      Compose(s, es, writes);
      es := es + writes;
    }
  }

  lemma OneStep(s: State, e: Step)
    requires Enabled(s, e)
    ensures Legal(s, [e]) && Final(s, [e]) == Apply(s, e)
  {
    assert [e][1..] == [];
  }
}
