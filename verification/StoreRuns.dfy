/**
 Several results stored at once, statement by statement: two workers with two threads each. A feed is looked
 up; if there is none, the new one is validated, with a look at the feeds' URLs, and then inserted, where
 the unique index has the last word; the association is looked up and inserted; and one statement inserts
 the items of the group. What one store reads, the others may change before it writes.
 */
module StoreRuns {
  import opened Base
  import opened Persistence

  /** The next statement of a store, for the group it is at. */
  datatype Point =
    | Finding
    | Validating
    | Creating
    | Associating(feed: nat)
    | Joining(feed: nat)
    | Inserting(feed: nat)

  /** A result being stored: `k` groups are done. */
  datatype Store = Store(request: nat, items: seq<Item>, k: nat, at: Point, failed: bool)

  datatype State = State(tables: Tables, stores: seq<Store>)

  predicate Finished(st: Store) {
    !st.failed && st.k == |Sources(st.items)|
  }

  predicate Running(st: Store) {
    !st.failed && st.k < |Sources(st.items)|
  }

  /** The source URL of the group a store is at. */
  function SourceOf(st: Store): Option<string>
    requires st.k < |Sources(st.items)|
  {
    Sources(st.items)[st.k]
  }

  function GroupOf(st: Store): (group: seq<Item>)
    requires st.k < |Sources(st.items)|
    ensures group != []
  {
    SourcesAreDistinct(st.items);
    assert SourceOf(st) in Sources(st.items);
    Group(st.items, SourceOf(st))
  }

  function Known(t: Tables, source: Option<string>): Option<FeedRow> {
    if source.Some? then FindFeed(t.feeds, source.value) else None
  }

  /** What a statement does to the tables. */
  function TablesAfter(t: Tables, st: Store): Tables
    requires Running(st)
  {
    if st.at.Creating? && SourceOf(st).Some? then WithFeed(t, SourceOf(st).value, TitleOf(GroupOf(st)))
    else if st.at.Joining? then WithJoin(t, Join(st.request, st.at.feed))
    else if st.at.Inserting? then t.(items := InsertAll(t.items, st.at.feed, GroupOf(st)))
    else t
  }

  /** How a statement moves its store on. Validation refuses a blank URL and a URL that is taken by then; the
      unique index makes a late insertion of a feed find the other one, and a late insertion of an association
      raise. */
  function StoreAfter(t: Tables, st: Store): Store
    requires Running(st)
  {
    if st.at.Finding? then
      st.(at := if Known(t, SourceOf(st)).Some? then Associating(Known(t, SourceOf(st)).value.id) else Validating)
    else if st.at.Validating? then
      if Blank(SourceOf(st)) || Known(t, SourceOf(st)).Some? then st.(failed := true) else st.(at := Creating)
    else if st.at.Creating? then
      if SourceOf(st).None? then st.(failed := true)
      else st.(at := Associating(FeedOf(t, SourceOf(st).value, TitleOf(GroupOf(st))).id))
    else if st.at.Associating? then
      st.(at := if Join(st.request, st.at.feed) in t.joins then Inserting(st.at.feed) else Joining(st.at.feed))
    else if st.at.Joining? then
      if Join(st.request, st.at.feed) in t.joins then st.(failed := true) else st.(at := Inserting(st.at.feed))
    else st.(k := st.k + 1, at := Finding)
  }

  /** The next statement of a store, or anything else that makes it raise. */
  datatype Step = Next(i: nat) | Raise(i: nat)

  predicate Enabled(s: State, e: Step) {
    e.i < |s.stores| && Running(s.stores[e.i])
  }

  function Apply(s: State, e: Step): State
    requires Enabled(s, e)
  {
    var st := s.stores[e.i];
    if e.Raise? then s.(stores := s.stores[e.i := st.(failed := true)])
    else State(TablesAfter(s.tables, st), s.stores[e.i := StoreAfter(s.tables, st)])
  }

  predicate Legal(s: State, es: seq<Step>)
    decreases |es|
  {
    es == [] || (Enabled(s, es[0]) && Legal(Apply(s, es[0]), es[1..]))
  }

  function Final(s: State, es: seq<Step>): State
    requires Legal(s, es)
    decreases |es|
  {
    if es == [] then s else Final(Apply(s, es[0]), es[1..])
  }

  /** Valid tables, and stores that have not begun. */
  predicate Fresh(s: State) {
    Valid(s.tables) && forall i :: 0 <= i < |s.stores| ==>
      s.stores[i].k == 0 && s.stores[i].at.Finding? && !s.stores[i].failed
  }

  /******* Rows stay *******/

  lemma {:induction false} FindFeedStays(a: seq<FeedRow>, b: seq<FeedRow>, url: string)
    requires a <= b && FindFeed(a, url).Some?
    ensures FindFeed(b, url) == FindFeed(a, url)
    decreases |b|
  {
    if |a| < |b| {
      FindFeedStays(a, b[..|b| - 1], url);
    } else {
      assert a == b;
    }
  }

  lemma {:induction false} FindItemStays(a: seq<ItemRow>, b: seq<ItemRow>, feed: nat, link: string)
    requires a <= b && FindItem(a, feed, link).Some?
    ensures FindItem(b, feed, link) == FindItem(a, feed, link)
    decreases |b|
  {
    if |a| < |b| {
      FindItemStays(a, b[..|b| - 1], feed, link);
    } else {
      assert a == b;
    }
  }

  lemma PresentStays(a: Tables, b: Tables, request: nat, source: Option<string>, group: seq<Item>)
    requires Extends(a, b) && Present(a, request, source, group)
    ensures Present(b, request, source, group)
  {
    FindFeedStays(a.feeds, b.feeds, source.value);
    var feed := FindFeed(a.feeds, source.value).value.id;
    forall x | x in group && x.link.Some?
      ensures Lookup(b, source.value, x.link.value).Some?
    {
      FindItemStays(a.items, b.items, feed, x.link.value);
    }
  }

  /******* The invariant *******/

  /** A store knows the feed of its group by the right number, and has it associated before it inserts items. */
  predicate Placed(t: Tables, st: Store) {
    && st.k <= |Sources(st.items)|
    && (Running(st) ==>
          && (st.at.Creating? ==> !Blank(SourceOf(st)))
          && (st.at.Associating? || st.at.Joining? || st.at.Inserting? ==>
                !Blank(SourceOf(st)) && Known(t, SourceOf(st)).Some? && Known(t, SourceOf(st)).value.id == st.at.feed)
          && (st.at.Inserting? ==> Join(st.request, st.at.feed) in t.joins))
  }

  /** The groups that are done are in the tables. */
  predicate DoneStored(t: Tables, st: Store) {
    forall m :: 0 <= m < st.k && m < |Sources(st.items)| ==>
      Present(t, st.request, Sources(st.items)[m], Group(st.items, Sources(st.items)[m]))
  }

  predicate Inv(s: State) {
    && Valid(s.tables)
    && forall i :: 0 <= i < |s.stores| ==> Placed(s.tables, s.stores[i]) && DoneStored(s.tables, s.stores[i])
  }

  lemma StatementKeepsValid(t: Tables, st: Store)
    requires Valid(t) && Placed(t, st) && Running(st)
    ensures Valid(TablesAfter(t, st)) && Extends(t, TablesAfter(t, st))
  {
    if st.at.Creating? {
      FeedKeepsValid(t, SourceOf(st).value, TitleOf(GroupOf(st)));
    } else if st.at.Joining? || st.at.Inserting? {
      FindFeedIsARow(t.feeds, SourceOf(st).value);
      assert st.at.feed < t.next;
      if st.at.Inserting? {
        InsertAllKeeps(t.items, st.at.feed, GroupOf(st), t.next);
      }
    }
  }

  lemma PlacedStays(a: Tables, b: Tables, st: Store)
    requires Extends(a, b) && Placed(a, st)
    ensures Placed(b, st)
  {
    if Running(st) && (st.at.Associating? || st.at.Joining? || st.at.Inserting?) {
      FindFeedStays(a.feeds, b.feeds, SourceOf(st).value);
    }
  }

  lemma DoneStays(a: Tables, b: Tables, st: Store)
    requires Extends(a, b) && DoneStored(a, st)
    ensures DoneStored(b, st)
  {
    forall m | 0 <= m < st.k && m < |Sources(st.items)|
      ensures Present(b, st.request, Sources(st.items)[m], Group(st.items, Sources(st.items)[m]))
    {
      PresentStays(a, b, st.request, Sources(st.items)[m], Group(st.items, Sources(st.items)[m]));
    }
  }

  /** The insertion makes its group present. */
  lemma InsertionIsPresent(t: Tables, st: Store)
    requires Valid(t) && Placed(t, st) && Running(st) && st.at.Inserting?
    ensures Present(TablesAfter(t, st), st.request, SourceOf(st), GroupOf(st))
  {
    forall x | x in GroupOf(st) && x.link.Some?
      ensures Lookup(TablesAfter(t, st), SourceOf(st).value, x.link.value).Some?
    {
      FirstWithExists(GroupOf(st), x);
      FindAfterInsertAll(t.items, st.at.feed, GroupOf(st), st.at.feed, x.link.value);
    }
  }

  lemma MoverKeepsInv(t: Tables, st: Store)
    requires Valid(t) && Placed(t, st) && DoneStored(t, st) && Running(st)
    ensures Placed(TablesAfter(t, st), StoreAfter(t, st)) && DoneStored(TablesAfter(t, st), StoreAfter(t, st))
  {
    var t', st' := TablesAfter(t, st), StoreAfter(t, st);
    StatementKeepsValid(t, st);
    DoneStays(t, t', st);
    if st.at.Finding? && Known(t, SourceOf(st)).Some? {
      FindFeedIsARow(t.feeds, SourceOf(st).value);
    } else if st.at.Creating? {
      FindAfterWithFeed(t, SourceOf(st).value, TitleOf(GroupOf(st)), SourceOf(st).value);
    } else if st.at.Inserting? {
      InsertionIsPresent(t, st);
      assert st'.k == st.k + 1 && Sources(st'.items) == Sources(st.items);
    }
  }

  /** The same results are being stored. */
  predicate SameJobs(a: State, b: State) {
    |a.stores| == |b.stores|
    && forall i :: 0 <= i < |a.stores| ==>
      a.stores[i].request == b.stores[i].request && a.stores[i].items == b.stores[i].items
  }

  lemma StepKeepsInv(s: State, e: Step)
    requires Inv(s) && Enabled(s, e)
    ensures Inv(Apply(s, e)) && Extends(s.tables, Apply(s, e).tables) && SameJobs(s, Apply(s, e))
  {
    var st, s' := s.stores[e.i], Apply(s, e);
    if e.Next? {
      StatementKeepsValid(s.tables, st);
      MoverKeepsInv(s.tables, st);
    }
    forall j | 0 <= j < |s.stores| && j != e.i
      ensures Placed(s'.tables, s.stores[j]) && DoneStored(s'.tables, s.stores[j])
    {
      PlacedStays(s.tables, s'.tables, s.stores[j]);
      DoneStays(s.tables, s'.tables, s.stores[j]);
    }
  }

  /** In every interleaving the unique indexes hold and no row that was there is altered. */
  lemma {:induction false} RunsKeepRows(s: State, es: seq<Step>)
    requires Inv(s) && Legal(s, es)
    ensures Inv(Final(s, es)) && Extends(s.tables, Final(s, es).tables) && SameJobs(s, Final(s, es))
    decreases |es|
  {
    if es != [] {
      StepKeepsInv(s, es[0]);
      RunsKeepRows(Apply(s, es[0]), es[1..]);
    }
  }

  lemma FreshInv(s: State)
    requires Fresh(s)
    ensures Inv(s)
  {
  }

  /******* What is stored *******/

  /** An item of one of the results has this key and these columns. */
  ghost predicate Offered(s: State, url: string, link: string, columns: Columns) {
    exists i, x :: 0 <= i < |s.stores| && x in s.stores[i].items
      && x.sourceURL == Some(url) && x.link == Some(link) && ColumnsOf(x) == columns
  }

  lemma {:induction false} FirstWithIsOffered(group: seq<Item>, link: string)
    ensures FirstWith(group, link).Some? ==>
        exists x :: x in group && x.link == Some(link) && Some(ColumnsOf(x)) == FirstWith(group, link)
  {
    if group != [] {
      var n := |group| - 1;
      FirstWithIsOffered(group[..n], link);
      if FirstWith(group[..n], link).Some? {
        var x :| x in group[..n] && x.link == Some(link) && Some(ColumnsOf(x)) == FirstWith(group[..n], link);
        assert x in group;
      }
    }
  }

  /** What a statement adds under a key is an item of its result with that key. */
  lemma StatementOffers(t: Tables, st: Store, url: string, link: string)
    requires Valid(t) && Placed(t, st) && Running(st)
    ensures var after := Lookup(TablesAfter(t, st), url, link);
            && (Lookup(t, url, link).Some? ==> after == Lookup(t, url, link))
            && (after.Some? && Lookup(t, url, link).None? ==>
                  exists x :: x in st.items && x.sourceURL == Some(url) && x.link == Some(link)
                    && Some(ColumnsOf(x)) == after)
  {
    if st.at.Creating? {
      FindAfterWithFeed(t, SourceOf(st).value, TitleOf(GroupOf(st)), url);
      NoSuchFeed(t.items, t.next, link);
    } else if st.at.Inserting? && FindFeed(t.feeds, url).Some? {
      var feed := FindFeed(t.feeds, url).value.id;
      FindAfterInsertAll(t.items, st.at.feed, GroupOf(st), feed, link);
      if url != SourceOf(st).value {
        OtherFeed(t.feeds, url, SourceOf(st).value);
      } else {
        FirstWithIsOffered(GroupOf(st), link);
        GroupMembers(st.items, SourceOf(st));
      }
    }
  }

  /** In every interleaving, what is stored under a key was there before, or is what some result offers under it. */
  lemma {:induction false} NothingInvented(s: State, es: seq<Step>, url: string, link: string)
    requires Inv(s) && Legal(s, es)
    ensures var after := Lookup(Final(s, es).tables, url, link);
            if Lookup(s.tables, url, link).Some? then after == Lookup(s.tables, url, link)
            else after.Some? ==> Offered(s, url, link, after.value)
    decreases |es|
  {
    if es != [] {
      var e, s' := es[0], Apply(s, es[0]);
      StepKeepsInv(s, e);
      NothingInvented(s', es[1..], url, link);
      if e.Next? {
        StatementOffers(s.tables, s.stores[e.i], url, link);
      }
      var after := Lookup(Final(s, es).tables, url, link);
      if Lookup(s.tables, url, link).None? && after.Some? && Lookup(s'.tables, url, link).None? {
        OfferedStays(s', s, url, link, after.value);
      }
    }
  }

  lemma OfferedStays(a: State, b: State, url: string, link: string, columns: Columns)
    requires SameJobs(a, b) && Offered(a, url, link, columns)
    ensures Offered(b, url, link, columns)
  {
    var i, x :| 0 <= i < |a.stores| && x in a.stores[i].items
      && x.sourceURL == Some(url) && x.link == Some(link) && ColumnsOf(x) == columns;
    assert x in b.stores[i].items;
  }

  /** Some result has an item with this key. */
  predicate HasKey(items: seq<Item>, url: string, link: string) {
    exists x :: x in items && x.sourceURL == Some(url) && x.link == Some(link)
  }

  /** A finished store has every key of its result in the tables, whatever the others did meanwhile. */
  lemma FinishedIsStored(s: State, i: nat, url: string, link: string)
    requires Inv(s) && i < |s.stores| && Finished(s.stores[i]) && HasKey(s.stores[i].items, url, link)
    ensures Lookup(s.tables, url, link).Some? && Associated(s.tables, s.stores[i].request, url)
  {
    var st := s.stores[i];
    var x :| x in st.items && x.sourceURL == Some(url) && x.link == Some(link);
    SourcesAreDistinct(st.items);
    assert Some(url) in Sources(st.items);
    var m :| 0 <= m < |Sources(st.items)| && Sources(st.items)[m] == Some(url);
    assert Present(s.tables, st.request, Some(url), Group(st.items, Some(url)));
    GroupMembers(st.items, Some(url));
  }

  /** When all results are stored, in whatever interleaving, the stored keys are exactly those that were there and
      those of the results. */
  lemma KeysAreTheUnion(s: State, es: seq<Step>, url: string, link: string)
    requires Fresh(s) && Legal(s, es)
    requires forall st :: st in Final(s, es).stores ==> Finished(st)
    ensures Lookup(Final(s, es).tables, url, link).Some? <==>
            Lookup(s.tables, url, link).Some? || exists i :: 0 <= i < |s.stores| && HasKey(s.stores[i].items, url, link)
  {
    FreshInv(s);
    RunsKeepRows(s, es);
    NothingInvented(s, es, url, link);
    var t := Final(s, es);
    if Lookup(t.tables, url, link).Some? && Lookup(s.tables, url, link).None? {
      var i, x :| 0 <= i < |s.stores| && x in s.stores[i].items
        && x.sourceURL == Some(url) && x.link == Some(link) && ColumnsOf(x) == Lookup(t.tables, url, link).value;
      assert HasKey(s.stores[i].items, url, link);
    }
    if i :| 0 <= i < |s.stores| && HasKey(s.stores[i].items, url, link) {
      FinishedIsStored(t, i, url, link);
    }
  }

  /******* When no store raises *******/

  /** A run in which nothing but the statements themselves can raise. */
  predicate Calm(es: seq<Step>) {
    forall e :: e in es ==> e.Next?
  }

  predicate NoneFailed(s: State) {
    forall i :: 0 <= i < |s.stores| ==> !s.stores[i].failed
  }

  /** No blank URL, and any URL that two results have in common has its feed already, associated already if they
      are results of one request. */
  ghost predicate Compatible(s: State) {
    && (forall i :: 0 <= i < |s.stores| ==> Storable(s.stores[i].items))
    && (forall i, j, k ::
          0 <= i < |s.stores| && 0 <= j < |s.stores| && i != j && InBoth(s, i, j, k) ==> Settled(s, i, j, k))
  }

  predicate InBoth(s: State, i: nat, j: nat, k: Option<string>)
    requires i < |s.stores| && j < |s.stores|
  {
    k in Sources(s.stores[i].items) && k in Sources(s.stores[j].items)
  }

  predicate Settled(s: State, i: nat, j: nat, k: Option<string>)
    requires i < |s.stores| && j < |s.stores|
  {
    && Known(s.tables, k).Some?
    && (s.stores[i].request == s.stores[j].request ==> Associated(s.tables, s.stores[i].request, k.value))
  }

  /** A store has got past the insertion of a feed. */
  predicate MadeFeed(st: Store, k: Option<string>) {
    st.k <= |Sources(st.items)| &&
    (k in Sources(st.items)[..st.k]
     || (Running(st) && SourceOf(st) == k && (st.at.Associating? || st.at.Joining? || st.at.Inserting?)))
  }

  /** A store has got past the insertion of an association. */
  predicate MadeJoin(st: Store, k: Option<string>) {
    st.k <= |Sources(st.items)| &&
    (k in Sources(st.items)[..st.k] || (Running(st) && SourceOf(st) == k && st.at.Inserting?))
  }

  ghost predicate FeedMaker(s: State, k: Option<string>) {
    exists j :: 0 <= j < |s.stores| && MadeFeed(s.stores[j], k)
  }

  ghost predicate JoinMaker(s: State, r: nat, k: Option<string>) {
    exists j :: 0 <= j < |s.stores| && s.stores[j].request == r && MadeJoin(s.stores[j], k)
  }

  /** Feeds and associations that were not there at the start were made by a store that is past them. */
  ghost predicate Made(a: State, s: State, k: Option<string>) {
    k.Some? ==>
      && (Known(s.tables, k).Some? && Known(a.tables, k).None? ==> FeedMaker(s, k))
      && (forall r :: Associated(s.tables, r, k.value) && !Associated(a.tables, r, k.value) ==> JoinMaker(s, r, k))
  }

  /** What a store found missing was missing at the start. */
  predicate Missed(a: Tables, st: Store) {
    Running(st) ==>
      && (st.at.Validating? || st.at.Creating? ==> Known(a, SourceOf(st)).None?)
      && (st.at.Joining? && SourceOf(st).Some? ==> !Associated(a, st.request, SourceOf(st).value))
  }

  ghost predicate Safe(a: State, s: State) {
    && Inv(s) && SameJobs(a, s) && Extends(a.tables, s.tables) && NoneFailed(s)
    && (forall k :: Made(a, s, k))
    && (forall i :: 0 <= i < |s.stores| ==> Missed(a.tables, s.stores[i]))
  }

  lemma NotYetMade(st: Store)
    requires Running(st)
    ensures SourceOf(st) in Sources(st.items)
    ensures !st.at.Associating? && !st.at.Joining? && !st.at.Inserting? ==> !MadeFeed(st, SourceOf(st))
    ensures !st.at.Inserting? ==> !MadeJoin(st, SourceOf(st))
  {
    SourcesAreDistinct(st.items);
  }

  lemma MadeIsASource(st: Store, k: Option<string>)
    ensures MadeFeed(st, k) || MadeJoin(st, k) ==> k in Sources(st.items)
  {
  }

  /** Nobody else makes a feed that was missing at the start. */
  lemma NoOtherFeedMaker(a: State, s: State, i: nat)
    requires Compatible(a) && SameJobs(a, s) && i < |s.stores| && Running(s.stores[i])
    requires Known(a.tables, SourceOf(s.stores[i])).None?
    requires s.stores[i].at.Finding? || s.stores[i].at.Validating? || s.stores[i].at.Creating?
    ensures !FeedMaker(s, SourceOf(s.stores[i]))
  {
    var k := SourceOf(s.stores[i]);
    NotYetMade(s.stores[i]);
    forall j | 0 <= j < |s.stores|
      ensures !MadeFeed(s.stores[j], k)
    {
      MadeIsASource(s.stores[j], k);
      if j != i {
        assert InBoth(a, i, j, k) ==> Settled(a, i, j, k);
      }
    }
  }

  /** Nobody else makes an association that was missing at the start. */
  lemma NoOtherJoinMaker(a: State, s: State, i: nat)
    requires Compatible(a) && SameJobs(a, s) && i < |s.stores| && Running(s.stores[i]) && !s.stores[i].at.Inserting?
    requires SourceOf(s.stores[i]).Some? && !Associated(a.tables, s.stores[i].request, SourceOf(s.stores[i]).value)
    ensures !JoinMaker(s, s.stores[i].request, SourceOf(s.stores[i]))
  {
    var k, r := SourceOf(s.stores[i]), s.stores[i].request;
    NotYetMade(s.stores[i]);
    forall j | 0 <= j < |s.stores| && s.stores[j].request == r
      ensures !MadeJoin(s.stores[j], k)
    {
      MadeIsASource(s.stores[j], k);
      if j != i {
        assert InBoth(a, i, j, k) ==> Settled(a, i, j, k);
      }
    }
  }

  lemma SourceIsNotBlank(a: State, s: State, i: nat)
    requires Compatible(a) && SameJobs(a, s) && i < |s.stores| && Running(s.stores[i])
    ensures !Blank(SourceOf(s.stores[i]))
  {
    var st := s.stores[i];
    SourcesAreDistinct(st.items);
    assert SourceOf(st) in Sources(st.items);
    var x :| x in st.items && x.sourceURL == SourceOf(st);
    assert Storable(a.stores[i].items);
  }

  /** A statement of a safe state does not raise. */
  lemma SafeStatement(a: State, s: State, i: nat)
    requires Compatible(a) && Safe(a, s) && Enabled(s, Next(i))
    ensures !StoreAfter(s.tables, s.stores[i]).failed
  {
    var st := s.stores[i];
    var k := SourceOf(st);
    SourceIsNotBlank(a, s, i);
    assert Made(a, s, k) && Missed(a.tables, st) && Placed(s.tables, st);
    if st.at.Validating? {
      NoOtherFeedMaker(a, s, i);
    } else if st.at.Joining? {
      NoOtherJoinMaker(a, s, i);
    }
  }

  /** What a store has made stays made. */
  lemma MakerMovesOn(t: Tables, st: Store, k: Option<string>)
    requires Running(st)
    ensures MadeFeed(st, k) && !StoreAfter(t, st).failed ==> MadeFeed(StoreAfter(t, st), k)
    ensures MadeJoin(st, k) && !StoreAfter(t, st).failed ==> MadeJoin(StoreAfter(t, st), k)
  {
    if st.at.Inserting? {
      assert Sources(st.items)[..st.k + 1] == Sources(st.items)[..st.k] + [SourceOf(st)];
    }
  }

  lemma FeedMakerStays(s: State, i: nat, k: Option<string>)
    requires Enabled(s, Next(i)) && !StoreAfter(s.tables, s.stores[i]).failed && FeedMaker(s, k)
    ensures FeedMaker(Apply(s, Next(i)), k)
  {
    var j :| 0 <= j < |s.stores| && MadeFeed(s.stores[j], k);
    MakerMovesOn(s.tables, s.stores[i], k);
    assert MadeFeed(Apply(s, Next(i)).stores[j], k);
  }

  lemma JoinMakerStays(s: State, i: nat, r: nat, k: Option<string>)
    requires Enabled(s, Next(i)) && !StoreAfter(s.tables, s.stores[i]).failed && JoinMaker(s, r, k)
    ensures JoinMaker(Apply(s, Next(i)), r, k)
  {
    var j :| 0 <= j < |s.stores| && s.stores[j].request == r && MadeJoin(s.stores[j], k);
    MakerMovesOn(s.tables, s.stores[i], k);
    var t := Apply(s, Next(i));
    assert t.stores[j].request == r && MadeJoin(t.stores[j], k);
  }

  /** What a statement adds, it adds for its own group. */
  lemma StatementMakes(t: Tables, st: Store, url: string, r: nat)
    requires Valid(t) && Placed(t, st) && Running(st)
    ensures FindFeed(TablesAfter(t, st).feeds, url).Some? ==>
              FindFeed(t.feeds, url).Some? || (st.at.Creating? && SourceOf(st) == Some(url))
    ensures Associated(TablesAfter(t, st), r, url) ==>
              Associated(t, r, url) || (st.at.Joining? && SourceOf(st) == Some(url) && r == st.request)
  {
    if st.at.Creating? {
      FindAfterWithFeed(t, SourceOf(st).value, TitleOf(GroupOf(st)), url);
      AssociatedAfterFeed(t, SourceOf(st).value, TitleOf(GroupOf(st)), r, url);
    } else if st.at.Joining? {
      AssociatedAfterJoin(t, st.request, SourceOf(st).value, r, url);
    }
  }

  lemma SafeMade(a: State, s: State, i: nat, k: Option<string>)
    requires Compatible(a) && Safe(a, s) && Enabled(s, Next(i)) && !StoreAfter(s.tables, s.stores[i]).failed
    ensures Made(a, Apply(s, Next(i)), k)
  {
    if k.Some? {
      var st, t := s.stores[i], Apply(s, Next(i));
      assert Made(a, s, k) && Placed(s.tables, st);
      if Known(t.tables, k).Some? && Known(a.tables, k).None? {
        StatementMakes(s.tables, st, k.value, 0);
        if Known(s.tables, k).Some? {
          FeedMakerStays(s, i, k);
        } else {
          assert MadeFeed(t.stores[i], k);
        }
      }
      forall r | Associated(t.tables, r, k.value) && !Associated(a.tables, r, k.value)
        ensures JoinMaker(t, r, k)
      {
        StatementMakes(s.tables, st, k.value, r);
        if Associated(s.tables, r, k.value) {
          JoinMakerStays(s, i, r, k);
        } else {
          assert t.stores[i].request == r && MadeJoin(t.stores[i], k);
        }
      }
    }
  }

  lemma SafeMissed(a: State, s: State, i: nat)
    requires Compatible(a) && Safe(a, s) && Enabled(s, Next(i))
    ensures Missed(a.tables, StoreAfter(s.tables, s.stores[i]))
  {
    var st := s.stores[i];
    assert Missed(a.tables, st) && Placed(s.tables, st);
    if st.at.Finding? && Known(a.tables, SourceOf(st)).Some? {
      FindFeedStays(a.tables.feeds, s.tables.feeds, SourceOf(st).value);
    }
    if st.at.Associating? && Associated(a.tables, st.request, SourceOf(st).value) {
      FindFeedStays(a.tables.feeds, s.tables.feeds, SourceOf(st).value);
    }
  }

  lemma SafeStep(a: State, s: State, i: nat)
    requires Compatible(a) && Safe(a, s) && Enabled(s, Next(i))
    ensures Safe(a, Apply(s, Next(i)))
  {
    var t := Apply(s, Next(i));
    SafeStatement(a, s, i);
    StepKeepsInv(s, Next(i));
    SafeMissed(a, s, i);
    forall k
      ensures Made(a, t, k)
    {
      SafeMade(a, s, i, k);
    }
  }

  lemma {:induction false} SafeRuns(a: State, s: State, es: seq<Step>)
    requires Compatible(a) && Safe(a, s) && Legal(s, es) && Calm(es)
    ensures NoneFailed(Final(s, es))
    decreases |es|
  {
    if es != [] {
      assert es[0] in es;
      SafeStep(a, s, es[0].i);
      SafeRuns(a, Apply(s, es[0]), es[1..]);
    }
  }

  lemma FreshIsSafe(s: State)
    requires Fresh(s)
    ensures Safe(s, s)
  {
  }

  /******* A store that runs alone *******/

  lemma {:induction false} Then(s: State, es: seq<Step>, e: Step)
    requires Legal(s, es) && Enabled(Final(s, es), e)
    ensures Legal(s, es + [e]) && Final(s, es + [e]) == Apply(Final(s, es), e)
    decreases |es|
  {
    if es == [] {
      assert [e][1..] == [];
    } else {
      assert (es + [e])[0] == es[0] && (es + [e])[1..] == es[1..] + [e];
      Then(Apply(s, es[0]), es[1..], e);
    }
  }

  /** How many statements a store still has in its group, after the next one. */
  function Rank(p: Point): nat {
    if p.Finding? then 5
    else if p.Validating? then 4
    else if p.Creating? then 3
    else if p.Associating? then 2
    else if p.Joining? then 1
    else 0
  }

  /** What the store found missing is still missing. */
  predicate Undisturbed(t: Tables, st: Store) {
    && Placed(t, st)
    && (Running(st) ==>
          && (st.at.Validating? || st.at.Creating? ==> Known(t, SourceOf(st)).None?)
          && (st.at.Joining? ==> Join(st.request, st.at.feed) !in t.joins))
  }

  /** The tables at the end of the group, if the store runs alone from here. */
  function GroupEnd(t: Tables, st: Store): Tables
    requires Running(st)
  {
    if st.at.Inserting? then t.(items := InsertAll(t.items, st.at.feed, GroupOf(st)))
    else if st.at.Associating? || st.at.Joining? then
      var joined := WithJoin(t, Join(st.request, st.at.feed));
      joined.(items := InsertAll(joined.items, st.at.feed, GroupOf(st)))
    else PersistGroup(t, st.request, SourceOf(st), GroupOf(st)).tables
  }

  lemma GroupEndKept(t: Tables, st: Store)
    requires Running(st) && !Blank(SourceOf(st)) && Undisturbed(t, st) && !st.at.Inserting? && Valid(t)
    ensures var t', st' := TablesAfter(t, st), StoreAfter(t, st);
            && Running(st') && st' == st.(at := st'.at) && Rank(st'.at) < Rank(st.at)
            && Undisturbed(t', st') && Valid(t') && GroupEnd(t', st') == GroupEnd(t, st)
  {
    StatementKeepsValid(t, st);
    if st.at.Finding? && Known(t, SourceOf(st)).Some? {
      FindFeedIsARow(t.feeds, SourceOf(st).value);
    } else if st.at.Creating? {
      FindAfterWithFeed(t, SourceOf(st).value, TitleOf(GroupOf(st)), SourceOf(st).value);
    }
  }

  /** The store at the start of its next group. */
  function Ahead(st: Store, k: nat): Store {
    st.(k := k, at := Finding)
  }

  lemma {:induction false} RunGroup(a: State, es: seq<Step>, s: State, i: nat) returns (es': seq<Step>)
    requires Legal(a, es) && Calm(es) && Final(a, es) == s && Valid(s.tables)
    requires Enabled(s, Next(i)) && !Blank(SourceOf(s.stores[i])) && Undisturbed(s.tables, s.stores[i])
    ensures Legal(a, es') && Calm(es')
    ensures var st := s.stores[i];
            Final(a, es') == State(GroupEnd(s.tables, st), s.stores[i := Ahead(st, st.k + 1)])
    decreases Rank(s.stores[i].at)
  {
    var st, s' := s.stores[i], Apply(s, Next(i));
    Then(a, es, Next(i));
    es' := es + [Next(i)];
    if !st.at.Inserting? {
      GroupEndKept(s.tables, st);
      var next := s'.stores[i];
      es' := RunGroup(a, es', s', i);
      assert s'.stores[i := Ahead(next, next.k + 1)] == s.stores[i := Ahead(st, st.k + 1)];
    }
  }

  /** A store that has not begun, and whose first `m` sources are not blank. */
  predicate CanSolo(s: State, i: nat, m: nat) {
    && Valid(s.tables) && i < |s.stores|
    && !s.stores[i].failed && s.stores[i].k == 0 && s.stores[i].at.Finding?
    && m <= |Sources(s.stores[i].items)|
    && (forall j :: 0 <= j < m ==> !Blank(Sources(s.stores[i].items)[j]))
  }

  /** The state after the store has handled its first `m` groups alone: the tables are as if the block had handled
      them. */
  function SoloState(s: State, i: nat, m: nat): State
    requires CanSolo(s, i, m)
  {
    var st := s.stores[i];
    SourcesAreDistinct(st.items);
    State(PersistGroups(s.tables, st.request, st.items, Sources(st.items)[..m]).tables, s.stores[i := Ahead(st, m)])
  }

  lemma SoloValid(s: State, i: nat, m: nat)
    requires CanSolo(s, i, m)
    ensures Valid(SoloState(s, i, m).tables) && Extends(s.tables, SoloState(s, i, m).tables)
  {
    SourcesAreDistinct(s.stores[i].items);
    GroupsKeepValid(s.tables, s.stores[i].request, s.stores[i].items, Sources(s.stores[i].items)[..m]);
  }

  /** One more group of a result. */
  lemma OneMoreGroup(t: Tables, request: nat, items: seq<Item>, sources: seq<Option<string>>, m: nat)
    requires m < |sources| && sources == Sources(items) && forall j :: 0 <= j < m ==> !Blank(sources[j])
    ensures forall k :: k in sources ==> Group(items, k) != []
    ensures PersistGroups(t, request, items, sources[..m + 1]).tables
         == PersistGroup(PersistGroups(t, request, items, sources[..m]).tables, request, sources[m],
                         Group(items, sources[m])).tables
  {
    SourcesAreDistinct(items);
    assert forall k :: k in sources[..m] ==> !Blank(k);
    GroupsSucceed(t, request, items, sources[..m]);
    NextGroup(t, request, items, sources, m);
  }

  lemma SoloNext(s: State, i: nat, m: nat)
    requires m > 0 && CanSolo(s, i, m)
    ensures var mid := SoloState(s, i, m - 1);
            && Running(mid.stores[i]) && mid.stores[i].at.Finding? && !Blank(SourceOf(mid.stores[i]))
            && GroupEnd(mid.tables, mid.stores[i]) == SoloState(s, i, m).tables
            && mid.stores[i := Ahead(mid.stores[i], m)] == SoloState(s, i, m).stores
  {
    var st, mid := s.stores[i], SoloState(s, i, m - 1);
    OneMoreGroup(s.tables, st.request, st.items, Sources(st.items), m - 1);
    assert mid.stores[i] == Ahead(st, m - 1);
  }

  lemma SoloGroup(a: State, es: seq<Step>, s: State, i: nat, m: nat, mid: State) returns (es': seq<Step>)
    requires m > 0 && CanSolo(s, i, m) && mid == SoloState(s, i, m - 1)
    requires Legal(a, es) && Calm(es) && Final(a, es) == mid
    ensures Legal(a, es') && Calm(es') && Final(a, es') == SoloState(s, i, m)
  {
    SoloValid(s, i, m - 1);
    SoloNext(s, i, m);
    assert Enabled(mid, Next(i)) && Undisturbed(mid.tables, mid.stores[i]);
    es' := RunGroup(a, es, mid, i);
  }

  lemma {:induction false} Solo(a: State, es: seq<Step>, s: State, i: nat, m: nat) returns (es': seq<Step>)
    requires Legal(a, es) && Calm(es) && Final(a, es) == s && CanSolo(s, i, m)
    ensures Legal(a, es') && Calm(es') && Final(a, es') == SoloState(s, i, m)
  {
    if m == 0 {
      es' := es;
      assert s.stores[i := Ahead(s.stores[i], 0)] == s.stores;
    } else {
      es' := Solo(a, es, s, i, m - 1);
      es' := SoloGroup(a, es', s, i, m, SoloState(s, i, m - 1));
    }
  }

  /******* Runs in which a store raises *******/

  ghost predicate CanFail(s: State) {
    exists es :: Legal(s, es) && Calm(es) && !NoneFailed(Final(s, es))
  }

  /** One more statement of a run. */
  lemma Advance(a: State, es: seq<Step>, s: State, i: nat)
    requires Legal(a, es) && Calm(es) && Final(a, es) == s && Enabled(s, Next(i))
    ensures Legal(a, es + [Next(i)]) && Calm(es + [Next(i)]) && Final(a, es + [Next(i)]) == Apply(s, Next(i))
  {
    Then(a, es, Next(i));
  }

  /** A run that ends with a store that has raised. */
  lemma Raised(s: State, es: seq<Step>, t: State, i: nat)
    requires Legal(s, es) && Calm(es) && Final(s, es) == t && i < |t.stores| && t.stores[i].failed
    ensures CanFail(s)
  {
  }

  /** A store that comes to a blank source raises at its validation. */
  lemma BlankRaises(a: State, es: seq<Step>, s: State, i: nat)
    requires Legal(a, es) && Calm(es) && Final(a, es) == s && Valid(s.tables)
    requires Enabled(s, Next(i)) && s.stores[i].at.Finding? && Blank(SourceOf(s.stores[i]))
    ensures CanFail(a)
  {
    var k := SourceOf(s.stores[i]);
    if k.Some? {
      FindFeedIsARow(s.tables.feeds, k.value);
    }
    assert Known(s.tables, k).None?;
    Advance(a, es, s, i);
    var s1 := Apply(s, Next(i));
    Advance(a, es + [Next(i)], s1, i);
    Raised(a, es + [Next(i)] + [Next(i)], Apply(s1, Next(i)), i);
  }

  lemma FailsIfBlank(s: State, i: nat)
    requires Fresh(s) && i < |s.stores| && !Storable(s.stores[i].items)
    ensures CanFail(s)
  {
    var st := s.stores[i];
    var sources := Sources(st.items);
    var m := BeforeBlank(sources);
    SourcesAreDistinct(st.items);
    var x :| x in st.items && Blank(x.sourceURL);
    assert x.sourceURL in sources;
    assert m < |sources|;
    var es := Solo(s, [], s, i, m);
    SoloValid(s, i, m);
    BlankRaises(s, es, SoloState(s, i, m), i);
  }

  lemma StorableSources(items: seq<Item>)
    requires Storable(items)
    ensures forall k :: k in Sources(items) ==> !Blank(k)
  {
    SourcesAreDistinct(items);
  }

  /** A store that gets to one of its sources alone has neither made its feed nor associated it. */
  lemma SoloTo(s: State, i: nat, m: nat)
    requires i < |s.stores| && m < |Sources(s.stores[i].items)| && CanSolo(s, i, m)
    requires Sources(s.stores[i].items)[m].Some?
    ensures var t, k := SoloState(s, i, m), Sources(s.stores[i].items)[m];
            && (Known(t.tables, k).Some? <==> Known(s.tables, k).Some?)
            && (forall r :: Associated(t.tables, r, k.value) <==> Associated(s.tables, r, k.value))
  {
    var st, t := s.stores[i], SoloState(s, i, m);
    var sources := Sources(st.items);
    var k := sources[m];
    SourcesAreDistinct(st.items);
    assert k !in sources[..m];
    FeedsAfterGroups(s.tables, st.request, st.items, sources[..m], k.value);
    forall r
      ensures Associated(t.tables, r, k.value) <==> Associated(s.tables, r, k.value)
    {
      AssociatedAfterGroups(s.tables, st.request, st.items, sources[..m], r, k.value);
    }
  }

  /** A store that has handled everything alone has the feeds and associations of its result in the tables. */
  lemma SoloAll(s: State, j: nat, k: Option<string>)
    requires j < |s.stores| && CanSolo(s, j, |Sources(s.stores[j].items)|) && k in Sources(s.stores[j].items) && k.Some?
    ensures var t := SoloState(s, j, |Sources(s.stores[j].items)|);
            Known(t.tables, k).Some? && Associated(t.tables, s.stores[j].request, k.value)
  {
    var st := s.stores[j];
    var sources := Sources(st.items);
    SourcesAreDistinct(st.items);
    assert sources[..|sources|] == sources;
    AssociatedAfterGroups(s.tables, st.request, st.items, sources, st.request, k.value);
  }

  /** Store `i` has found the feed missing; then store `j` runs alone and makes it; the validation of `i` refuses. */
  lemma LateFeedRaises(a: State, es: seq<Step>, s: State, i: nat, j: nat, k: Option<string>)
    requires Legal(a, es) && Calm(es) && Final(a, es) == s && Enabled(s, Next(i)) && i != j && j < |s.stores|
    requires s.stores[i].at.Validating? && SourceOf(s.stores[i]) == k && k.Some? && k in Sources(s.stores[j].items)
    requires CanSolo(s, j, |Sources(s.stores[j].items)|)
    ensures CanFail(a)
  {
    var m := |Sources(s.stores[j].items)|;
    var es' := Solo(a, es, s, j, m);
    SoloAll(s, j, k);
    var t := SoloState(s, j, m);
    assert t.stores[i] == s.stores[i];
    Advance(a, es', t, i);
    Raised(a, es' + [Next(i)], Apply(t, Next(i)), i);
  }

  /** Store `i` has found the association missing; then store `j` of the same request makes it; the unique index
      refuses. */
  lemma LateJoinRaises(a: State, es: seq<Step>, s: State, i: nat, j: nat, k: Option<string>)
    requires Legal(a, es) && Calm(es) && Final(a, es) == s && Enabled(s, Next(i)) && i != j && j < |s.stores|
    requires s.stores[i].at.Joining? && SourceOf(s.stores[i]) == k && k.Some? && k in Sources(s.stores[j].items)
    requires Known(s.tables, k).Some? && Known(s.tables, k).value.id == s.stores[i].at.feed
    requires s.stores[i].request == s.stores[j].request && CanSolo(s, j, |Sources(s.stores[j].items)|)
    ensures CanFail(a)
  {
    var m := |Sources(s.stores[j].items)|;
    var es' := Solo(a, es, s, j, m);
    SoloAll(s, j, k);
    SoloValid(s, j, m);
    var t := SoloState(s, j, m);
    assert t.stores[i] == s.stores[i];
    FindFeedStays(s.tables.feeds, t.tables.feeds, k.value);
    Advance(a, es', t, i);
    Raised(a, es' + [Next(i)], Apply(t, Next(i)), i);
  }

  /** Store `i` is about to look for a feed that is missing, and store `j` has it too. */
  lemma NewFeedRaises(a: State, es: seq<Step>, s: State, i: nat, j: nat, k: Option<string>)
    requires Legal(a, es) && Calm(es) && Final(a, es) == s && Enabled(s, Next(i)) && i != j && j < |s.stores|
    requires s.stores[i].at.Finding? && SourceOf(s.stores[i]) == k && k.Some? && k in Sources(s.stores[j].items)
    requires Known(s.tables, k).None? && CanSolo(s, j, |Sources(s.stores[j].items)|)
    ensures CanFail(a)
  {
    var t := Apply(s, Next(i));
    Advance(a, es, s, i);
    assert t.stores[j] == s.stores[j] && t.tables == s.tables;
    LateFeedRaises(a, es + [Next(i)], t, i, j, k);
  }

  /** Store `i` is about to look for a feed that is there but not associated, and store `j` of the same request has
      it too. */
  lemma NewJoinRaises(a: State, es: seq<Step>, s: State, i: nat, j: nat, k: Option<string>)
    requires Legal(a, es) && Calm(es) && Final(a, es) == s && Enabled(s, Next(i)) && i != j && j < |s.stores|
    requires s.stores[i].at.Finding? && SourceOf(s.stores[i]) == k && k.Some? && k in Sources(s.stores[j].items)
    requires Known(s.tables, k).Some? && !Associated(s.tables, s.stores[i].request, k.value)
    requires s.stores[i].request == s.stores[j].request && CanSolo(s, j, |Sources(s.stores[j].items)|)
    ensures CanFail(a)
  {
    var t := Apply(s, Next(i));
    Advance(a, es, s, i);
    assert t.stores[j] == s.stores[j] && t.tables == s.tables;
    var u := Apply(t, Next(i));
    Advance(a, es + [Next(i)], t, i);
    assert u.stores[j] == s.stores[j] && u.tables == s.tables;
    LateJoinRaises(a, es + [Next(i)] + [Next(i)], u, i, j, k);
  }

  /** Two results with a URL in common whose feed is new, or new to the request of both. */
  lemma FailsIfUnsettled(s: State, i: nat, j: nat, k: Option<string>)
    requires Fresh(s) && i < |s.stores| && j < |s.stores| && i != j && InBoth(s, i, j, k) && !Settled(s, i, j, k)
    requires Storable(s.stores[i].items) && Storable(s.stores[j].items)
    ensures CanFail(s)
  {
    StorableSources(s.stores[i].items);
    StorableSources(s.stores[j].items);
    var m :| 0 <= m < |Sources(s.stores[i].items)| && Sources(s.stores[i].items)[m] == k;
    var es := Solo(s, [], s, i, m);
    SoloTo(s, i, m);
    SoloValid(s, i, m);
    var t := SoloState(s, i, m);
    assert t.stores[j] == s.stores[j];
    if Known(s.tables, k).None? {
      NewFeedRaises(s, es, t, i, j, k);
    } else {
      NewJoinRaises(s, es, t, i, j, k);
    }
  }

  /** Whether some interleaving makes a store raise although nothing else goes wrong: exactly if a URL is blank, or
      two results have a URL in common whose feed is new, or new to the request that both belong to. */
  lemma RaisesExactly(s: State)
    requires Fresh(s)
    ensures CanFail(s) <==> !Compatible(s)
  {
    if Compatible(s) {
      FreshIsSafe(s);
      forall es | Legal(s, es) && Calm(es)
        ensures NoneFailed(Final(s, es))
      {
        SafeRuns(s, s, es);
      }
    } else if i :| 0 <= i < |s.stores| && !Storable(s.stores[i].items) {
      FailsIfBlank(s, i);
    } else {
      var i, j, k :| 0 <= i < |s.stores| && 0 <= j < |s.stores| && i != j && InBoth(s, i, j, k) && !Settled(s, i, j, k);
      FailsIfUnsettled(s, i, j, k);
    }
  }

  /** Without such clashes every interleaving that comes to an end has stored every result. */
  lemma CompatibleResultsAreStored(s: State, es: seq<Step>, url: string, link: string)
    requires Fresh(s) && Compatible(s) && Legal(s, es) && Calm(es)
    requires forall st :: st in Final(s, es).stores ==> !Running(st)
    ensures Lookup(Final(s, es).tables, url, link).Some? <==>
            Lookup(s.tables, url, link).Some? || exists i :: 0 <= i < |s.stores| && HasKey(s.stores[i].items, url, link)
  {
    FreshIsSafe(s);
    SafeRuns(s, s, es);
    FreshInv(s);
    RunsKeepRows(s, es);
    var t := Final(s, es);
    forall st | st in t.stores
      ensures Finished(st)
    {
      var i :| 0 <= i < |t.stores| && t.stores[i] == st;
      assert Placed(t.tables, t.stores[i]);
    }
    KeysAreTheUnion(s, es, url, link);
  }
}
