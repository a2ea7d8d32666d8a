/**
 Persisting the items of a result: grouped by source URL, a feed found or created per group, the feed
 associated with the request, and the group's items inserted unless their feed and link are taken.
 The result job and the publisher's fallback hold the same block.
 */
module Persistence {
  import opened Base
  import opened Sequences

  /** An item as the payload gives it; any field may be missing. */
  datatype Item = Item(
    title: Option<string>,
    source: Option<string>,
    sourceURL: Option<string>,
    link: Option<string>,
    publishDate: Option<string>,
    date: Option<string>,
    description: Option<string>
  )

  /** The columns of an item's row that come from the payload. */
  datatype Columns = Columns(
    title: Option<string>,
    source: Option<string>,
    sourceURL: Option<string>,
    link: Option<string>,
    publishDate: Option<string>,
    description: Option<string>
  )

  datatype FeedRow = FeedRow(id: nat, url: string, title: string)
  datatype ItemRow = ItemRow(feed: nat, columns: Columns)
  datatype Join = Join(request: nat, feed: nat)

  /** The tables; feeds are numbered from `next` on. */
  datatype Tables = Tables(feeds: seq<FeedRow>, items: seq<ItemRow>, joins: seq<Join>, next: nat)

  /** What the block leaves, and whether it ended without raising. */
  datatype Outcome = Outcome(tables: Tables, ok: bool)

  const DEFAULT_SOURCE := "RSS Source"
  const SPACES: set<char> := {' ', '\t', '\n', '\r'}

  /******* Grouping *******/

  /** The source URLs in the order of their first occurrence. */
  function Sources(items: seq<Item>): seq<Option<string>> {
    if items == [] then []
    else
      var n := |items| - 1;
      var before := Sources(items[..n]);
      if items[n].sourceURL in before then before else before + [items[n].sourceURL]
  }

  function Group(items: seq<Item>, source: Option<string>): seq<Item> {
    if items == [] then []
    else
      var n := |items| - 1;
      Group(items[..n], source) + if items[n].sourceURL == source then [items[n]] else []
  }

  /******* The tables *******/

  /** What the presence validation refuses. */
  predicate Blank(source: Option<string>) {
    source.None? || forall c :: c in source.value ==> c in SPACES
  }

  function FindFeed(feeds: seq<FeedRow>, url: string): Option<FeedRow> {
    if feeds == [] then None
    else
      var n := |feeds| - 1;
      var before := FindFeed(feeds[..n], url);
      if before.Some? then before else if feeds[n].url == url then Some(feeds[n]) else None
  }

  function FindItem(items: seq<ItemRow>, feed: nat, link: string): Option<Columns> {
    if items == [] then None
    else
      var n := |items| - 1;
      var before := FindItem(items[..n], feed, link);
      if before.Some? then before
      else if items[n].feed == feed && items[n].columns.link == Some(link) then Some(items[n].columns)
      else None
  }

  /** The title of a feed that is created for a group. */
  function TitleOf(group: seq<Item>): string
    requires group != []
  {
    if group[0].source.Some? then group[0].source.value else DEFAULT_SOURCE
  }

  function ColumnsOf(item: Item): Columns {
    Columns(item.title, item.source, item.sourceURL, item.link,
            if item.publishDate.Some? then item.publishDate else item.date, item.description)
  }

  /** Adds a feed unless its URL is taken. */
  function WithFeed(t: Tables, url: string, title: string): Tables {
    if FindFeed(t.feeds, url).Some? then t
    else t.(feeds := t.feeds + [FeedRow(t.next, url, title)], next := t.next + 1)
  }

  function WithJoin(t: Tables, join: Join): Tables {
    if join in t.joins then t else t.(joins := t.joins + [join])
  }

  /** An item conflicts with a row of the same feed and link; a missing link conflicts with nothing. */
  predicate Conflicts(rows: seq<ItemRow>, feed: nat, item: Item) {
    item.link.Some? && FindItem(rows, feed, item.link.value).Some?
  }

  function Insert(rows: seq<ItemRow>, feed: nat, item: Item): seq<ItemRow> {
    if Conflicts(rows, feed, item) then rows else rows + [ItemRow(feed, ColumnsOf(item))]
  }

  function InsertAll(rows: seq<ItemRow>, feed: nat, group: seq<Item>): seq<ItemRow> {
    if group == [] then rows
    else Insert(InsertAll(rows, feed, group[..|group| - 1]), feed, group[|group| - 1])
  }

  lemma FindAfterWithFeed(t: Tables, url: string, title: string, other: string)
    ensures FindFeed(WithFeed(t, url, title).feeds, other)
         == if FindFeed(t.feeds, other).Some? then FindFeed(t.feeds, other)
            else if other == url then Some(FeedRow(t.next, url, title)) else None
  {
    if FindFeed(t.feeds, url).None? {
      var row := FeedRow(t.next, url, title);
      assert (t.feeds + [row])[..|t.feeds|] == t.feeds;
    }
  }

  function FeedOf(t: Tables, url: string, title: string): FeedRow {
    FindAfterWithFeed(t, url, title, url);
    FindFeed(WithFeed(t, url, title).feeds, url).value
  }

  function PersistGroup(t: Tables, request: nat, source: Option<string>, group: seq<Item>): Outcome
    requires group != []
  {
    if Blank(source) then Outcome(t, false)
    else
      var feed := FeedOf(t, source.value, TitleOf(group));
      var joined := WithJoin(WithFeed(t, source.value, TitleOf(group)), Join(request, feed.id));
      Outcome(joined.(items := InsertAll(joined.items, feed.id, group)), true)
  }

  /** The groups are handled in order; one that raises ends the block. */
  function PersistGroups(t: Tables, request: nat, items: seq<Item>, sources: seq<Option<string>>): Outcome
    requires forall k :: k in sources ==> Group(items, k) != []
  {
    if sources == [] then Outcome(t, true)
    else
      var n := |sources| - 1;
      var before := PersistGroups(t, request, items, sources[..n]);
      if before.ok then PersistGroup(before.tables, request, sources[n], Group(items, sources[n])) else before
  }

  function Persist(t: Tables, request: nat, items: seq<Item>): Outcome {
    SourcesAreDistinct(items);
    PersistGroups(t, request, items, Sources(items))
  }

  lemma {:induction false} GroupMembers(items: seq<Item>, source: Option<string>)
    ensures forall x :: x in Group(items, source) <==> x in items && x.sourceURL == source
  {
    if items != [] {
      var n := |items| - 1;
      GroupMembers(items[..n], source);
      assert items == items[..n] + [items[n]];
    }
  }

  predicate Distinct(sources: seq<Option<string>>) {
    forall i, j :: 0 <= i < j < |sources| ==> sources[i] != sources[j]
  }

  /** The keys of the grouping: each source URL once. */
  lemma {:induction false} SourcesAreDistinct(items: seq<Item>)
    ensures forall i, j :: 0 <= i < j < |Sources(items)| ==> Sources(items)[i] != Sources(items)[j]
    ensures forall k :: k in Sources(items) <==> exists x :: x in items && x.sourceURL == k
    ensures forall k :: k in Sources(items) ==> Group(items, k) != []
  {
    if items != [] {
      var n := |items| - 1;
      SourcesAreDistinct(items[..n]);
      assert items == items[..n] + [items[n]];
      forall k
        ensures k in Sources(items) <==> exists x :: x in items && x.sourceURL == k
      {
        if k in Sources(items[..n]) {
          var x :| x in items[..n] && x.sourceURL == k;
          assert x in items;
        }
        if k == items[n].sourceURL {
          assert items[n] in items;
        }
      }
      forall k | k in Sources(items)
        ensures Group(items, k) != []
      {
        var x :| x in items && x.sourceURL == k;
        GroupMembers(items, k);
        assert x in Group(items, k);
      }
    }
  }

  /******* The operations *******/

  class Database {
    var feeds: seq<FeedRow>
    var items: seq<ItemRow>
    var joins: seq<Join>
    var next: nat

    ghost function Contents(): Tables
      reads this
    {
      Tables(feeds, items, joins, next)
    }

    constructor ()
      ensures Contents() == EMPTY
    {
      feeds, items, joins, next := [], [], [], 0;
    }

    /** Finds the feed of a URL, or creates it with the title; raises if the URL is blank. */
    method FindOrCreate(source: Option<string>, title: string) returns (feed: Option<FeedRow>)
      requires Valid(Contents())
      modifies this
      ensures feed.None? <==> Blank(source)
      ensures Contents() == if Blank(source) then old(Contents()) else WithFeed(old(Contents()), source.value, title)
      ensures feed.Some? ==> feed == FindFeed(feeds, source.value)
    {
      if Blank(source) {
        return None;
      }
      FindAfterWithFeed(Contents(), source.value, title, source.value);
      feed := None;
      for i := 0 to |feeds|
        invariant feed == FindFeed(feeds[..i], source.value)
      {
        assert feeds[..i + 1][..i] == feeds[..i];
        if feed.None? && feeds[i].url == source.value {
          feed := Some(feeds[i]);
        }
      }
      assert feeds[..|feeds|] == feeds;
      if feed.None? {
        feed := Some(FeedRow(next, source.value, title));
        feeds, next := feeds + [feed.value], next + 1;
      }
    }

    /** One statement inserts a group; a row that conflicts, also within the group, is skipped. */
    method InsertRows(feed: nat, group: seq<Item>)
      modifies this
      ensures Contents() == old(Contents()).(items := InsertAll(old(items), feed, group))
    {
      for i := 0 to |group|
        invariant Contents() == old(Contents()).(items := InsertAll(old(items), feed, group[..i]))
      {
        assert group[..i + 1][..i] == group[..i];
        if !Conflicts(items, feed, group[i]) {
          items := items + [ItemRow(feed, ColumnsOf(group[i]))];
        }
      }
      assert group[..|group|] == group;
    }

    method StoreGroup(request: nat, source: Option<string>, group: seq<Item>) returns (ok: bool)
      requires Valid(Contents()) && group != []
      modifies this
      ensures Outcome(Contents(), ok) == PersistGroup(old(Contents()), request, source, group)
      ensures Valid(Contents())
    {
      GroupKeepsValid(Contents(), request, source, group);
      var feed := FindOrCreate(source, TitleOf(group));
      if feed.None? {
        return false;
      }
      if Join(request, feed.value.id) !in joins {
        joins := joins + [Join(request, feed.value.id)];
      }
      InsertRows(feed.value.id, group);
      return true;
    }

    /** The block that both jobs run. */
    method Store(request: nat, result: seq<Item>) returns (ok: bool)
      requires Valid(Contents())
      modifies this
      ensures Outcome(Contents(), ok) == Persist(old(Contents()), request, result)
      ensures Valid(Contents())
    {
      SourcesAreDistinct(result);
      var sources := Sources(result);
      for i := 0 to |sources|
        invariant Outcome(Contents(), true) == PersistGroups(old(Contents()), request, result, sources[..i])
        invariant Valid(Contents())
      {
        NextGroup(old(Contents()), request, result, sources, i);
        var group := Group(result, sources[i]);
        var stored := StoreGroup(request, sources[i], group);
        if !stored {
          Stuck(old(Contents()), request, result, sources, i + 1);
          return false;
        }
      }
      assert sources[..|sources|] == sources;
      return true;
    }
  }

  const EMPTY := Tables([], [], [], 0)

  /** One more group is stored into what the groups before it left. */
  lemma NextGroup(t: Tables, request: nat, items: seq<Item>, sources: seq<Option<string>>, i: nat)
    requires i < |sources| && forall k :: k in sources ==> Group(items, k) != []
    requires PersistGroups(t, request, items, sources[..i]).ok
    ensures sources[i] in sources
    ensures PersistGroups(t, request, items, sources[..i + 1])
         == PersistGroup(PersistGroups(t, request, items, sources[..i]).tables, request, sources[i],
           Group(items, sources[i]))
  {
    assert sources[..i + 1][..i] == sources[..i];
  }

  lemma StuckStep(t: Tables, request: nat, items: seq<Item>, sources: seq<Option<string>>, before: seq<Option<string>>)
    requires sources != [] && before == sources[..|sources| - 1] && forall k :: k in sources ==> Group(items, k) != []
    requires !PersistGroups(t, request, items, before).ok
    ensures PersistGroups(t, request, items, sources) == PersistGroups(t, request, items, before)
  {
  }

  /** After a group raised, the rest of the groups is not handled. */
  lemma {:induction false} Stuck(t: Tables, request: nat, items: seq<Item>, sources: seq<Option<string>>, k: nat)
    requires k <= |sources| && forall k :: k in sources ==> Group(items, k) != []
    requires !PersistGroups(t, request, items, sources[..k]).ok
    ensures PersistGroups(t, request, items, sources) == PersistGroups(t, request, items, sources[..k])
  {
    if k < |sources| {
      var before := sources[..|sources| - 1];
      assert before[..k] == sources[..k];
      Stuck(t, request, items, before, k);
      StuckStep(t, request, items, sources, before);
    } else {
      assert sources[..k] == sources;
    }
  }

  /******* What the tables always satisfy *******/

  predicate UniqueUrls(feeds: seq<FeedRow>) {
    forall i, j :: 0 <= i < j < |feeds| ==> feeds[i].url != feeds[j].url && feeds[i].id != feeds[j].id
  }

  predicate UniqueLinks(rows: seq<ItemRow>) {
    forall i, j :: 0 <= i < j < |rows| && rows[i].columns.link.Some? && rows[i].feed == rows[j].feed ==>
      rows[i].columns.link != rows[j].columns.link
  }

  /** The unique indexes, the feeds' validation, and the references between the tables. */
  predicate Valid(t: Tables) {
    && UniqueUrls(t.feeds)
    && (forall i :: 0 <= i < |t.feeds| ==> t.feeds[i].id < t.next && !Blank(Some(t.feeds[i].url)))
    && UniqueLinks(t.items)
    && (forall i :: 0 <= i < |t.items| ==> t.items[i].feed < t.next)
    && (forall i, j :: 0 <= i < j < |t.joins| ==> t.joins[i] != t.joins[j])
    && (forall i :: 0 <= i < |t.joins| ==> t.joins[i].feed < t.next)
  }

  lemma {:induction false} FindFeedIsARow(feeds: seq<FeedRow>, url: string)
    ensures FindFeed(feeds, url).Some? <==> exists i :: 0 <= i < |feeds| && feeds[i].url == url
    ensures FindFeed(feeds, url).Some? ==> FindFeed(feeds, url).value in feeds && FindFeed(feeds, url).value.url == url
  {
    if feeds != [] {
      FindFeedIsARow(feeds[..|feeds| - 1], url);
    }
  }

  lemma {:induction false} FindItemIsARow(rows: seq<ItemRow>, feed: nat, link: string)
    ensures FindItem(rows, feed, link).Some? <==>
            exists i :: 0 <= i < |rows| && rows[i].feed == feed && rows[i].columns.link == Some(link)
  {
    if rows != [] {
      FindItemIsARow(rows[..|rows| - 1], feed, link);
    }
  }

  lemma {:induction false} InsertAllKeeps(rows: seq<ItemRow>, feed: nat, group: seq<Item>, next: nat)
    requires UniqueLinks(rows) && feed < next && forall i :: 0 <= i < |rows| ==> rows[i].feed < next
    ensures UniqueLinks(InsertAll(rows, feed, group)) && rows <= InsertAll(rows, feed, group)
    ensures forall i :: 0 <= i < |InsertAll(rows, feed, group)| ==> InsertAll(rows, feed, group)[i].feed < next
  {
    if group != [] {
      var n := |group| - 1;
      InsertAllKeeps(rows, feed, group[..n], next);
      if group[n].link.Some? {
        FindItemIsARow(InsertAll(rows, feed, group[..n]), feed, group[n].link.value);
      }
    }
  }

  /** Every row of `a` is still in its place in `b`. */
  predicate Extends(a: Tables, b: Tables) {
    a.feeds <= b.feeds && a.items <= b.items && a.joins <= b.joins && a.next <= b.next
  }

  lemma FeedKeepsValid(t: Tables, url: string, title: string)
    requires Valid(t) && !Blank(Some(url))
    ensures Valid(WithFeed(t, url, title)) && Extends(t, WithFeed(t, url, title))
    ensures FeedOf(t, url, title).id < WithFeed(t, url, title).next
  {
    FindFeedIsARow(t.feeds, url);
    FindAfterWithFeed(t, url, title, url);
    FindFeedIsARow(WithFeed(t, url, title).feeds, url);
  }

  lemma GroupKeepsValid(t: Tables, request: nat, source: Option<string>, group: seq<Item>)
    requires Valid(t) && group != []
    ensures Valid(PersistGroup(t, request, source, group).tables)
    ensures Extends(t, PersistGroup(t, request, source, group).tables)
  {
    if !Blank(source) {
      FeedKeepsValid(t, source.value, TitleOf(group));
      var feed := FeedOf(t, source.value, TitleOf(group));
      var t' := WithJoin(WithFeed(t, source.value, TitleOf(group)), Join(request, feed.id));
      assert Valid(t') && Extends(t, t');
      InsertAllKeeps(t'.items, feed.id, group, t'.next);
    }
  }

  lemma {:induction false} GroupsKeepValid(t: Tables, request: nat, items: seq<Item>, sources: seq<Option<string>>)
    requires Valid(t) && forall k :: k in sources ==> Group(items, k) != []
    ensures Valid(PersistGroups(t, request, items, sources).tables)
    ensures Extends(t, PersistGroups(t, request, items, sources).tables)
  {
    if sources != [] {
      var n := |sources| - 1;
      GroupsKeepValid(t, request, items, sources[..n]);
      GroupKeepsValid(PersistGroups(t, request, items, sources[..n]).tables, request, sources[n],
        Group(items, sources[n]));
    }
  }

  /** Whether it raises or not, the block keeps the unique indexes and alters no row that was there. */
  lemma PersistKeepsRows(t: Tables, request: nat, items: seq<Item>)
    requires Valid(t)
    ensures Valid(Persist(t, request, items).tables)
    ensures Extends(t, Persist(t, request, items).tables)
  {
    SourcesAreDistinct(items);
    GroupsKeepValid(t, request, items, Sources(items));
  }

  /******* When the block raises *******/

  /** How many groups come before the first with a blank source. */
  function BeforeBlank(sources: seq<Option<string>>): (n: nat)
    ensures n <= |sources| && (forall i :: 0 <= i < n ==> !Blank(sources[i])) && (n < |sources| ==> Blank(sources[n]))
  {
    if sources == [] || Blank(sources[0]) then 0 else 1 + BeforeBlank(sources[1..])
  }

  lemma {:induction false} GroupsSucceed(t: Tables, request: nat, items: seq<Item>, sources: seq<Option<string>>)
    requires forall k :: k in sources ==> Group(items, k) != [] && !Blank(k)
    ensures PersistGroups(t, request, items, sources).ok
  {
    if sources != [] {
      GroupsSucceed(t, request, items, sources[..|sources| - 1]);
    }
  }

  /** It raises exactly if an item's source URL is missing or blank, and then leaves the groups before that one. */
  lemma SucceedsExactly(t: Tables, request: nat, items: seq<Item>)
    ensures Persist(t, request, items).ok <==> Storable(items)
    ensures Persist(t, request, items).ok <==>
            forall x :: x in items ==>
              x.sourceURL.Some? && exists c :: c in x.sourceURL.value && c !in {' ', '\t', '\n', '\r'}
    ensures var sources := Sources(items);
            && (forall k :: k in sources ==> Group(items, k) != [])
            && Persist(t, request, items).tables
              == PersistGroups(t, request, items, sources[..BeforeBlank(sources)]).tables
  {
    SourcesAreDistinct(items);
    var sources := Sources(items);
    var n := BeforeBlank(sources);
    GroupsSucceed(t, request, items, sources[..n]);
    if n < |sources| {
      assert sources[n] in sources;
      StopsAtBlank(t, request, items, sources, n);
    } else {
      assert sources[..n] == sources;
      assert forall x :: x in items ==> x.sourceURL in sources;
    }
  }

  lemma StopsAtBlank(t: Tables, request: nat, items: seq<Item>, sources: seq<Option<string>>, n: nat)
    requires n < |sources| && Blank(sources[n]) && forall k :: k in sources ==> Group(items, k) != []
    requires PersistGroups(t, request, items, sources[..n]).ok
    ensures PersistGroups(t, request, items, sources)
        == Outcome(PersistGroups(t, request, items, sources[..n]).tables, false)
  {
    assert sources[..n + 1][..n] == sources[..n];
    assert sources[n] in sources;
    Stuck(t, request, items, sources, n + 1);
  }

  /******* First wins *******/

  /** What is stored under a feed's URL and a link. */
  function Lookup(t: Tables, url: string, link: string): Option<Columns> {
    var feed := FindFeed(t.feeds, url);
    if feed.Some? then FindItem(t.items, feed.value.id, link) else None
  }

  /** The columns of the first item that satisfies what a row of that link needs. */
  function FirstWith(items: seq<Item>, link: string): Option<Columns> {
    if items == [] then None
    else
      var n := |items| - 1;
      var before := FirstWith(items[..n], link);
      if before.Some? then before else if items[n].link == Some(link) then Some(ColumnsOf(items[n])) else None
  }

  function Or<A>(a: Option<A>, b: Option<A>): Option<A> {
    if a.Some? then a else b
  }

  lemma {:induction false} FindAfterInsertAll(rows: seq<ItemRow>, feed: nat, group: seq<Item>, f: nat, link: string)
    ensures FindItem(InsertAll(rows, feed, group), f, link)
         == Or(FindItem(rows, f, link), if f == feed then FirstWith(group, link) else None)
  {
    if group != [] {
      var n := |group| - 1;
      var before := InsertAll(rows, feed, group[..n]);
      FindAfterInsertAll(rows, feed, group[..n], f, link);
      if !Conflicts(before, feed, group[n]) {
        assert (before + [ItemRow(feed, ColumnsOf(group[n]))])[..|before|] == before;
      }
    }
  }

  lemma NoSuchFeed(rows: seq<ItemRow>, feed: nat, link: string)
    requires forall i :: 0 <= i < |rows| ==> rows[i].feed < feed
    ensures FindItem(rows, feed, link).None?
  {
    FindItemIsARow(rows, feed, link);
  }

  /** The last group is stored into valid tables that the others left. */
  lemma LastGroup(t: Tables, request: nat, items: seq<Item>, sources: seq<Option<string>>) returns (before: Tables)
    requires Valid(t) && sources != [] && forall k :: k in sources ==> Group(items, k) != [] && !Blank(k)
    ensures before == PersistGroups(t, request, items, sources[..|sources| - 1]).tables && Valid(before)
    ensures var k := sources[|sources| - 1];
            !Blank(k) && Group(items, k) != []
              && PersistGroups(t, request, items, sources) == PersistGroup(before, request, k, Group(items, k))
    ensures forall k :: k in sources <==> k in sources[..|sources| - 1] || k == sources[|sources| - 1]
  {
    var n := |sources| - 1;
    before := PersistGroups(t, request, items, sources[..n]).tables;
    InitAndLast(sources);
    GroupsSucceed(t, request, items, sources[..n]);
    GroupsKeepValid(t, request, items, sources[..n]);
  }

  lemma LookupAfterGroup(t: Tables, request: nat, source: Option<string>, group: seq<Item>, url: string, link: string)
    requires Valid(t) && group != [] && !Blank(source)
    ensures var t' := PersistGroup(t, request, source, group).tables;
            && Lookup(t', url, link)
               == Or(Lookup(t, url, link), if source == Some(url) then FirstWith(group, link) else None)
            && FindFeed(t'.feeds, url)
               == Or(FindFeed(t.feeds, url),
                     if source == Some(url) then Some(FeedRow(t.next, url, TitleOf(group))) else None)
  {
    var title := TitleOf(group);
    FindAfterWithFeed(t, source.value, title, source.value);
    FindAfterWithFeed(t, source.value, title, url);
    FindFeedIsARow(t.feeds, url);
    FindFeedIsARow(t.feeds, source.value);
    NoSuchFeed(t.items, t.next, link);
    var feed := FindFeed(PersistGroup(t, request, source, group).tables.feeds, url);
    if feed.Some? {
      FindAfterInsertAll(t.items, FeedOf(t, source.value, title).id, group, feed.value.id, link);
    }
  }

  lemma {:induction false} LookupAfterGroups(
    t: Tables, request: nat, items: seq<Item>, sources: seq<Option<string>>, url: string, link: string
  )
    requires Valid(t) && forall k :: k in sources ==> Group(items, k) != [] && !Blank(k)
    ensures Lookup(PersistGroups(t, request, items, sources).tables, url, link)
         == Or(Lookup(t, url, link), if Some(url) in sources then FirstWith(Group(items, Some(url)), link) else None)
  {
    if sources != [] {
      var n := |sources| - 1;
      var before := LastGroup(t, request, items, sources);
      LookupAfterGroups(t, request, items, sources[..n], url, link);
      LookupAfterGroup(before, request, sources[n], Group(items, sources[n]), url, link);
    }
  }

  /** The columns of the first item of a result with a given source URL and link. */
  function FirstOf(items: seq<Item>, url: string, link: string): Option<Columns> {
    if items == [] then None
    else
      var n := |items| - 1;
      Or(FirstOf(items[..n], url, link),
         if items[n].sourceURL == Some(url) && items[n].link == Some(link) then Some(ColumnsOf(items[n])) else None)
  }

  lemma {:induction false} FirstInGroup(items: seq<Item>, url: string, link: string)
    ensures FirstWith(Group(items, Some(url)), link) == FirstOf(items, url, link)
  {
    if items != [] {
      var n := |items| - 1;
      FirstInGroup(items[..n], url, link);
      var before := Group(items[..n], Some(url));
      assert (before + [items[n]])[..|before|] == before;
      assert Group(items, Some(url)) == if items[n].sourceURL == Some(url) then before + [items[n]] else before;
    }
  }

  lemma {:induction false} FirstOfExists(items: seq<Item>, url: string, link: string)
    ensures FirstOf(items, url, link).Some?
        <==> exists x :: x in items && x.sourceURL == Some(url) && x.link == Some(link)
  {
    if items != [] {
      var n := |items| - 1;
      FirstOfExists(items[..n], url, link);
      InitAndLast(items);
    }
  }

  predicate Storable(items: seq<Item>) {
    forall x :: x in items ==> !Blank(x.sourceURL)
  }

  /** The block is a first-wins merge of the result into the tables: what was stored stays, and every
      missing pair of source URL and link gets the first item of the result that has it. */
  lemma FirstWins(t: Tables, request: nat, items: seq<Item>, url: string, link: string)
    requires Valid(t) && Storable(items)
    ensures Lookup(Persist(t, request, items).tables, url, link) == Or(Lookup(t, url, link), FirstOf(items, url, link))
  {
    SourcesAreDistinct(items);
    LookupAfterGroups(t, request, items, Sources(items), url, link);
    FirstInGroup(items, url, link);
    if Some(url) !in Sources(items) {
      FirstOfExists(items, url, link);
      assert forall x :: x in items ==> x.sourceURL != Some(url);
    }
  }

  /******* Which item each new row comes from *******/

  /** The positions of a group's items. */
  function Where(items: seq<Item>, source: Option<string>): (at: seq<nat>)
    ensures |at| == |Group(items, source)|
    ensures forall k :: 0 <= k < |at| ==> at[k] < |items| && items[at[k]] == Group(items, source)[k]
    ensures forall j, k :: 0 <= j < k < |at| ==> at[j] < at[k]
  {
    if items == [] then []
    else
      var n := |items| - 1;
      Where(items[..n], source) + if items[n].sourceURL == source then [n] else []
  }

  /** The positions in a group of the items that get a row. */
  function Kept(rows: seq<ItemRow>, feed: nat, group: seq<Item>): (at: seq<nat>)
    ensures forall k :: 0 <= k < |at| ==> at[k] < |group|
    ensures forall j, k :: 0 <= j < k < |at| ==> at[j] < at[k]
  {
    if group == [] then []
    else
      var n := |group| - 1;
      Kept(rows, feed, group[..n]) + if Conflicts(InsertAll(rows, feed, group[..n]), feed, group[n]) then [] else [n]
  }

  lemma {:induction false} KeptRows(rows: seq<ItemRow>, feed: nat, group: seq<Item>)
    ensures var all, at := InsertAll(rows, feed, group), Kept(rows, feed, group);
            && rows <= all && |all| == |rows| + |at|
            && forall k :: 0 <= k < |at| ==> all[|rows| + k] == ItemRow(feed, ColumnsOf(group[at[k]]))
  {
    if group != [] {
      var n := |group| - 1;
      KeptRows(rows, feed, group[..n]);
      assert forall k :: 0 <= k < |Kept(rows, feed, group[..n])| ==>
          group[..n][Kept(rows, feed, group[..n])[k]] == group[Kept(rows, feed, group[..n])[k]];
    }
  }

  /** Positions in a group, as positions in the result. */
  function InResult(items: seq<Item>, source: Option<string>, at: seq<nat>): (from: seq<nat>)
    requires forall k :: 0 <= k < |at| ==> at[k] < |Group(items, source)|
    requires forall j, k :: 0 <= j < k < |at| ==> at[j] < at[k]
    ensures |from| == |at| && forall k :: 0 <= k < |from| ==> from[k] < |items|
    ensures forall k :: 0 <= k < |from| ==> items[from[k]] == Group(items, source)[at[k]]
    ensures forall k :: 0 <= k < |from| ==> items[from[k]].sourceURL == source
    ensures forall j, k :: 0 <= j < k < |from| ==> from[j] < from[k]
  {
    GroupMembers(items, source);
    var all := Where(items, source);
    var from := seq(|at|, k requires 0 <= k < |at| => all[at[k]]);
    assert forall k :: 0 <= k < |at| ==> from[k] == all[at[k]] && Group(items, source)[at[k]] in Group(items, source);
    from
  }

  /** The positions in the result of the items that get a row in the next group. */
  function NextOrigins(t: Tables, items: seq<Item>, source: Option<string>): (from: seq<nat>)
    requires Group(items, source) != []
    ensures forall k :: 0 <= k < |from| ==> from[k] < |items| && items[from[k]].sourceURL == source
    ensures forall j, k :: 0 <= j < k < |from| ==> from[j] < from[k]
  {
    if Blank(source) then []
    else
      var group := Group(items, source);
      InResult(items, source, Kept(t.items, FeedOf(t, source.value, TitleOf(group)).id, group))
  }

  /** Those of all groups, in the order of the rows. */
  function Origins(t: Tables, request: nat, items: seq<Item>, sources: seq<Option<string>>): seq<nat>
    requires forall k :: k in sources ==> Group(items, k) != []
  {
    if sources == [] then []
    else
      var n := |sources| - 1;
      var before := PersistGroups(t, request, items, sources[..n]);
      Origins(t, request, items, sources[..n])
      + if before.ok then NextOrigins(before.tables, items, sources[n]) else []
  }

  /** A row holds an item, under the feed of its URL. */
  predicate RowOf(feeds: seq<FeedRow>, row: ItemRow, x: Item) {
    && row.columns == ColumnsOf(x) && x.sourceURL.Some?
    && exists f :: f in feeds && f.id == row.feed && f.url == x.sourceURL.value
  }

  lemma FeedIsThere(t: Tables, request: nat, source: Option<string>, group: seq<Item>)
    requires group != [] && !Blank(source)
    ensures var t', feed := PersistGroup(t, request, source, group).tables, FeedOf(t, source.value, TitleOf(group));
            && t.feeds <= t'.feeds && feed in t'.feeds && feed.url == source.value
            && t'.items == InsertAll(t.items, feed.id, group)
  {
    FindAfterWithFeed(t, source.value, TitleOf(group), source.value);
    FindFeedIsARow(WithFeed(t, source.value, TitleOf(group)).feeds, source.value);
  }

  lemma RowsOfGroup(feeds: seq<FeedRow>, rows: seq<ItemRow>, feed: FeedRow, group: seq<Item>)
    requires feed in feeds && forall x :: x in group ==> x.sourceURL == Some(feed.url)
    ensures var all, at := InsertAll(rows, feed.id, group), Kept(rows, feed.id, group);
            && rows <= all && |all| == |rows| + |at|
            && forall k :: 0 <= k < |at| ==> RowOf(feeds, all[|rows| + k], group[at[k]])
  {
    KeptRows(rows, feed.id, group);
    var at := Kept(rows, feed.id, group);
    assert forall k :: 0 <= k < |at| ==> group[at[k]] in group;
  }

  /** The rows of a group's items, by their positions in the result. */
  lemma RowsInResult(feeds: seq<FeedRow>, all: seq<ItemRow>, base: nat, items: seq<Item>, source: Option<string>,
                     at: seq<nat>)
    requires forall k :: 0 <= k < |at| ==> at[k] < |Group(items, source)|
    requires forall j, k :: 0 <= j < k < |at| ==> at[j] < at[k]
    requires base + |at| <= |all|
    requires forall k :: 0 <= k < |at| ==> RowOf(feeds, all[base + k], Group(items, source)[at[k]])
    ensures forall k :: 0 <= k < |at| ==> RowOf(feeds, all[base + k], items[InResult(items, source, at)[k]])
  {
    var from := InResult(items, source, at);
    forall k | 0 <= k < |at|
      ensures RowOf(feeds, all[base + k], items[from[k]])
    {
      assert items[from[k]] == Group(items, source)[at[k]];
    }
  }

  /** The feed of a group, and its items' rows. */
  lemma GroupRows(t: Tables, request: nat, items: seq<Item>, source: Option<string>, feed: FeedRow, at: seq<nat>)
    requires Group(items, source) != [] && !Blank(source)
    requires feed == FeedOf(t, source.value, TitleOf(Group(items, source)))
    requires at == Kept(t.items, feed.id, Group(items, source))
    ensures var t' := PersistGroup(t, request, source, Group(items, source)).tables;
            && t.items <= t'.items && |t'.items| == |t.items| + |at| && t.feeds <= t'.feeds
            && forall k :: 0 <= k < |at| ==> RowOf(t'.feeds, t'.items[|t.items| + k], Group(items, source)[at[k]])
  {
    var group := Group(items, source);
    FeedIsThere(t, request, source, group);
    GroupMembers(items, source);
    RowsOfGroup(PersistGroup(t, request, source, group).tables.feeds, t.items, feed, group);
  }

  /** A group that is stored adds a row for each of some positions in the result. */
  predicate Adds(t: Tables, t': Tables, items: seq<Item>, from: seq<nat>) {
    && t.items <= t'.items && |t'.items| == |t.items| + |from| && t.feeds <= t'.feeds
    && forall k :: 0 <= k < |from| ==> from[k] < |items| && RowOf(t'.feeds, t'.items[|t.items| + k], items[from[k]])
  }

  lemma GroupAdds(t: Tables, request: nat, items: seq<Item>, source: Option<string>, feed: FeedRow, at: seq<nat>)
    requires Group(items, source) != [] && !Blank(source)
    requires feed == FeedOf(t, source.value, TitleOf(Group(items, source)))
    requires at == Kept(t.items, feed.id, Group(items, source))
    ensures Adds(t, PersistGroup(t, request, source, Group(items, source)).tables, items, InResult(items, source, at))
  {
    var t' := PersistGroup(t, request, source, Group(items, source)).tables;
    GroupRows(t, request, items, source, feed, at);
    RowsInResult(t'.feeds, t'.items, |t.items|, items, source, at);
  }

  lemma NextRows(t: Tables, request: nat, items: seq<Item>, source: Option<string>)
    requires Group(items, source) != []
    ensures Adds(t, PersistGroup(t, request, source, Group(items, source)).tables, items, NextOrigins(t, items, source))
  {
    if !Blank(source) {
      var feed := FeedOf(t, source.value, TitleOf(Group(items, source)));
      GroupAdds(t, request, items, source, feed, Kept(t.items, feed.id, Group(items, source)));
    }
  }

  lemma {:induction false} AllRows(t: Tables, request: nat, items: seq<Item>, sources: seq<Option<string>>)
    requires Distinct(sources) && forall k :: k in sources ==> Group(items, k) != []
    ensures var from := Origins(t, request, items, sources);
            && Adds(t, PersistGroups(t, request, items, sources).tables, items, from)
            && (forall k :: 0 <= k < |from| ==> items[from[k]].sourceURL in sources)
            && forall j, k :: 0 <= j < k < |from| ==>
                 items[from[j]].sourceURL == items[from[k]].sourceURL ==> from[j] < from[k]
  {
    if sources != [] {
      var n := |sources| - 1;
      AllRows(t, request, items, sources[..n]);
      var before := PersistGroups(t, request, items, sources[..n]);
      assert sources[n] in sources && sources[n] !in sources[..n];
      if before.ok {
        NextRows(before.tables, request, items, sources[n]);
        AddsMore(t, before.tables, PersistGroups(t, request, items, sources).tables, items,
          Origins(t, request, items, sources[..n]), NextOrigins(before.tables, items, sources[n]));
      }
    }
  }

  lemma AddsMore(a: Tables, b: Tables, c: Tables, items: seq<Item>, from: seq<nat>, more: seq<nat>)
    requires Adds(a, b, items, from) && Adds(b, c, items, more)
    ensures Adds(a, c, items, from + more)
  {
    forall k | 0 <= k < |from + more|
      ensures (from + more)[k] < |items| && RowOf(c.feeds, c.items[|a.items| + k], items[(from + more)[k]])
    {
      if k < |from| {
        assert RowOf(b.feeds, b.items[|a.items| + k], items[from[k]]);
        assert c.items[|a.items| + k] == b.items[|a.items| + k];
      } else {
        var j := k - |from|;
        assert RowOf(c.feeds, c.items[|b.items| + j], items[more[j]]);
      }
    }
  }

  /** An earlier item has the same URL and link. */
  predicate HasTwin(items: seq<Item>, i: nat)
    requires i < |items|
  {
    exists j :: 0 <= j < i && items[j].sourceURL == items[i].sourceURL && items[j].link == items[i].link
  }

  /** The item at a position gets a row: it has no link, or nothing is stored under its link yet and no earlier item of
      the result has its URL and link. */
  predicate GetsARow(t: Tables, items: seq<Item>, i: nat)
    requires i < |items|
  {
    || items[i].link.None? || items[i].sourceURL.None?
    || (Lookup(t, items[i].sourceURL.value, items[i].link.value).None? && !HasTwin(items, i))
  }

  lemma {:induction false} FirstWithIsEarlier(group: seq<Item>, link: string)
    ensures FirstWith(group, link).Some? <==> exists j :: 0 <= j < |group| && group[j].link == Some(link)
  {
    if group != [] {
      FirstWithIsEarlier(group[..|group| - 1], link);
    }
  }

  predicate HasEarlier(group: seq<Item>, i: nat)
    requires i < |group|
  {
    exists j :: 0 <= j < i && group[j].link == group[i].link
  }

  lemma LastKept(rows: seq<ItemRow>, feed: nat, group: seq<Item>)
    requires group != []
    ensures var n := |group| - 1;
            n in Kept(rows, feed, group) <==>
            || group[n].link.None?
            || (FindItem(rows, feed, group[n].link.value).None? && !HasEarlier(group, n))
  {
    var n := |group| - 1;
    if group[n].link.Some? {
      FindAfterInsertAll(rows, feed, group[..n], feed, group[n].link.value);
      FirstWithIsEarlier(group[..n], group[n].link.value);
      assert HasEarlier(group, n) <==> exists j :: 0 <= j < n && group[..n][j].link == group[n].link;
    }
  }

  lemma EarlierInPrefix(group: seq<Item>, n: nat, i: nat)
    requires i < n <= |group|
    ensures HasEarlier(group[..n], i) <==> HasEarlier(group, i)
  {
    if j :| 0 <= j < i && group[j].link == group[i].link {
      assert group[..n][j].link == group[i].link;
    }
  }

  lemma {:induction false} KeptExactly(rows: seq<ItemRow>, feed: nat, group: seq<Item>, i: nat)
    requires i < |group|
    ensures i in Kept(rows, feed, group) <==>
            || group[i].link.None?
            || (FindItem(rows, feed, group[i].link.value).None? && !HasEarlier(group, i))
  {
    var n := |group| - 1;
    if i < n {
      KeptExactly(rows, feed, group[..n], i);
      EarlierInPrefix(group, n, i);
    } else {
      LastKept(rows, feed, group);
    }
  }

  lemma {:induction false} WhereIsAll(items: seq<Item>, source: Option<string>, i: nat) returns (k: nat)
    requires i < |items| && items[i].sourceURL == source
    ensures k < |Where(items, source)| && Where(items, source)[k] == i
  {
    var n := |items| - 1;
    if i < n {
      k := WhereIsAll(items[..n], source, i);
    } else {
      k := |Where(items[..n], source)|;
    }
  }

  lemma InItsGroup(items: seq<Item>, source: Option<string>, k: nat)
    requires k < |Where(items, source)|
    ensures var i := Where(items, source)[k];
            i < |items| && items[i] == Group(items, source)[k] && items[i].sourceURL == source
  {
    GroupMembers(items, source);
    assert Group(items, source)[k] in Group(items, source);
  }

  lemma EarlierIsTwin(items: seq<Item>, source: Option<string>, k: nat)
    requires k < |Where(items, source)| && HasEarlier(Group(items, source), k)
    ensures HasTwin(items, Where(items, source)[k])
  {
    var group := Group(items, source);
    var j :| 0 <= j < k && group[j].link == group[k].link;
    InItsGroup(items, source, j);
    InItsGroup(items, source, k);
    assert Where(items, source)[j] < Where(items, source)[k];
  }

  lemma TwinIsEarlier(items: seq<Item>, source: Option<string>, k: nat)
    requires k < |Where(items, source)| && HasTwin(items, Where(items, source)[k])
    ensures HasEarlier(Group(items, source), k)
  {
    var i := Where(items, source)[k];
    InItsGroup(items, source, k);
    var j :| 0 <= j < i && items[j].sourceURL == items[i].sourceURL && items[j].link == items[i].link;
    var l := WhereIsAll(items, source, j);
    InItsGroup(items, source, l);
    assert l < k && Group(items, source)[l].link == Group(items, source)[k].link;
  }

  lemma FoundIsLookup(t: Tables, url: string, title: string, link: string)
    requires Valid(t)
    ensures FindItem(t.items, FeedOf(t, url, title).id, link) == Lookup(t, url, link)
  {
    FindAfterWithFeed(t, url, title, url);
    NoSuchFeed(t.items, t.next, link);
  }

  lemma NextExactly(t: Tables, items: seq<Item>, source: Option<string>, i: nat)
    requires Valid(t) && !Blank(source) && i < |items| && items[i].sourceURL == source && Group(items, source) != []
    ensures i in NextOrigins(t, items, source) <==> GetsARow(t, items, i)
  {
    var group := Group(items, source);
    var k := WhereIsAll(items, source, i);
    var feed := FeedOf(t, source.value, TitleOf(group));
    var kept, from := Kept(t.items, feed.id, group), NextOrigins(t, items, source);
    KeptExactly(t.items, feed.id, group, k);
    assert i in from <==> k in kept by {
      InResultHas(items, source, kept, k);
    }
    if items[i].link.Some? {
      if HasEarlier(group, k) {
        EarlierIsTwin(items, source, k);
      }
      if HasTwin(items, i) {
        TwinIsEarlier(items, source, k);
      }
      FoundIsLookup(t, source.value, TitleOf(group), items[i].link.value);
    }
  }

  lemma InResultAt(items: seq<Item>, source: Option<string>, at: seq<nat>, j: nat)
    requires forall k :: 0 <= k < |at| ==> at[k] < |Group(items, source)|
    requires forall i, k :: 0 <= i < k < |at| ==> at[i] < at[k]
    requires j < |at|
    ensures InResult(items, source, at)[j] == Where(items, source)[at[j]]
  {
  }

  lemma WhereIsInjective(items: seq<Item>, source: Option<string>, j: nat, k: nat)
    requires j < |Where(items, source)| && k < |Where(items, source)|
    requires Where(items, source)[j] == Where(items, source)[k]
    ensures j == k
  {
  }

  lemma InResultHas(items: seq<Item>, source: Option<string>, at: seq<nat>, k: nat)
    requires forall j :: 0 <= j < |at| ==> at[j] < |Group(items, source)|
    requires forall i, j :: 0 <= i < j < |at| ==> at[i] < at[j]
    requires k < |Group(items, source)|
    ensures Where(items, source)[k] in InResult(items, source, at) <==> k in at
  {
    var all, from := Where(items, source), InResult(items, source, at);
    if k in at {
      var j :| 0 <= j < |at| && at[j] == k;
      InResultAt(items, source, at, j);
    }
    if all[k] in from {
      var j :| 0 <= j < |from| && from[j] == all[k];
      InResultAt(items, source, at, j);
      WhereIsInjective(items, source, at[j], k);
    }
  }

  lemma {:induction false} OriginsExactly(
    t: Tables, request: nat, items: seq<Item>, sources: seq<Option<string>>, i: nat
  )
    requires Valid(t) && Distinct(sources) && forall k :: k in sources ==> Group(items, k) != [] && !Blank(k)
    requires i < |items| && items[i].sourceURL in sources
    ensures i in Origins(t, request, items, sources) <==> GetsARow(t, items, i)
  {
    var n := |sources| - 1;
    var before := LastGroup(t, request, items, sources);
    GroupsSucceed(t, request, items, sources[..n]);
    AllRows(t, request, items, sources[..n]);
    assert sources[n] !in sources[..n];
    if items[i].sourceURL == sources[n] {
      NextExactly(before, items, sources[n], i);
      if items[i].link.Some? {
        LookupAfterGroups(t, request, items, sources[..n], items[i].sourceURL.value, items[i].link.value);
      }
    } else {
      OriginsExactly(t, request, items, sources[..n], i);
    }
  }

  /** A blank URL adds no row, and neither does any group after it. */
  lemma NoMoreOrigins(t: Tables, request: nat, items: seq<Item>, sources: seq<Option<string>>)
    requires sources != [] && forall k :: k in sources ==> Group(items, k) != []
    requires var n := |sources| - 1;
             Blank(sources[n]) || !PersistGroups(t, request, items, sources[..n]).ok
    ensures Origins(t, request, items, sources) == Origins(t, request, items, sources[..|sources| - 1])
    ensures !PersistGroups(t, request, items, sources).ok
  {
  }

  lemma {:induction false} OriginsStop(t: Tables, request: nat, items: seq<Item>, sources: seq<Option<string>>, n: nat)
    requires n < |sources| && Blank(sources[n]) && forall k :: k in sources ==> Group(items, k) != []
    ensures Origins(t, request, items, sources) == Origins(t, request, items, sources[..n])
    ensures !PersistGroups(t, request, items, sources).ok
  {
    var last := |sources| - 1;
    if n < last {
      var before := sources[..last];
      assert before[..n] == sources[..n];
      OriginsStop(t, request, items, before, n);
    }
    NoMoreOrigins(t, request, items, sources);
  }

  /** An item of the URL comes before every item with a blank one, or is one itself. */
  predicate Reached(items: seq<Item>, source: Option<string>) {
    exists p :: 0 <= p < |items| && items[p].sourceURL == source
                && forall q :: 0 <= q <= p ==> !Blank(items[q].sourceURL)
  }

  lemma ReachedMore(items: seq<Item>, source: Option<string>)
    requires items != []
    ensures var n := |items| - 1;
            Reached(items, source) <==>
            || Reached(items[..n], source)
            || (items[n].sourceURL == source && forall q :: 0 <= q <= n ==> !Blank(items[q].sourceURL))
  {
    var n := |items| - 1;
    if Reached(items[..n], source) {
      var p :| 0 <= p < n && items[..n][p].sourceURL == source
        && forall q :: 0 <= q <= p ==> !Blank(items[..n][q].sourceURL);
      assert forall q :: 0 <= q <= p ==> items[q] == items[..n][q];
      assert items[p].sourceURL == source;
    }
    if p :| 0 <= p < n && items[p].sourceURL == source && forall q :: 0 <= q <= p ==> !Blank(items[q].sourceURL) {
      assert items[..n][p].sourceURL == source;
    }
  }

  /** The sources whose groups are stored. */
  function ToStore(sources: seq<Option<string>>): (stored: seq<Option<string>>)
    ensures forall k :: k in stored ==> k in sources && !Blank(k)
  {
    sources[..BeforeBlank(sources)]
  }

  lemma {:induction false} BeforeBlankAppend(sources: seq<Option<string>>, k: Option<string>)
    ensures BeforeBlank(sources + [k])
        == if BeforeBlank(sources) < |sources| || Blank(k) then BeforeBlank(sources) else |sources| + 1
  {
    if sources == [] {
      assert [k][1..] == [];
    } else {
      assert (sources + [k])[1..] == sources[1..] + [k];
      BeforeBlankAppend(sources[1..], k);
    }
  }

  lemma StoredAppend(sources: seq<Option<string>>, k: Option<string>)
    ensures ToStore(sources + [k])
        == if BeforeBlank(sources) < |sources| || Blank(k) then ToStore(sources) else sources + [k]
  {
    BeforeBlankAppend(sources, k);
  }

  lemma AllBut(items: seq<Item>)
    requires items != []
    ensures var n := |items| - 1;
            (forall q :: 0 <= q <= n ==> !Blank(items[q].sourceURL)) <==>
            Storable(items[..n]) && !Blank(items[n].sourceURL)
    ensures Storable(items) <==> Storable(items[..|items| - 1]) && !Blank(items[|items| - 1].sourceURL)
  {
    var n := |items| - 1;
    InitAndLast(items);
    assert forall q :: 0 <= q < n ==> items[..n][q] == items[q];
  }

  /** The groups before the first blank one are those with an item that comes before every blank one. */
  lemma {:induction false} GroupsReached(items: seq<Item>, source: Option<string>)
    ensures source in ToStore(Sources(items)) <==> Reached(items, source)
    ensures BeforeBlank(Sources(items)) == |Sources(items)| <==> Storable(items)
  {
    if items != [] {
      var n := |items| - 1;
      var before, k := Sources(items[..n]), items[n].sourceURL;
      GroupsReached(items[..n], source);
      ReachedMore(items, source);
      AllBut(items);
      SourcesAreDistinct(items[..n]);
      StoredAppend(before, k);
      BeforeBlankAppend(before, k);
      if BeforeBlank(before) == |before| {
        assert ToStore(before) == before;
      }
    }
  }

  /** No row comes from a group that is not stored. */
  lemma OriginsOfStored(t: Tables, request: nat, items: seq<Item>)
    ensures var sources := Sources(items);
            && (forall k :: k in sources ==> Group(items, k) != [])
            && Origins(t, request, items, sources) == Origins(t, request, items, ToStore(sources))
  {
    SourcesAreDistinct(items);
    var sources := Sources(items);
    var n := BeforeBlank(sources);
    if n < |sources| {
      OriginsStop(t, request, items, sources, n);
    } else {
      assert sources[..n] == sources;
    }
  }

  lemma OriginsAre(t: Tables, request: nat, items: seq<Item>, i: nat)
    requires Valid(t) && i < |items|
    ensures forall k :: k in Sources(items) ==> Group(items, k) != []
    ensures i in Origins(t, request, items, Sources(items)) <==>
            GetsARow(t, items, i) && Reached(items, items[i].sourceURL)
  {
    SourcesAreDistinct(items);
    OriginsOfStored(t, request, items);
    GroupsReached(items, items[i].sourceURL);
    var stored := ToStore(Sources(items));
    if items[i].sourceURL in stored {
      OriginsExactly(t, request, items, stored, i);
    } else {
      AllRows(t, request, items, stored);
    }
  }

  /** Every row after those that were there is an item of the result, field by field, under the feed of its source URL;
      no item has two rows, and the items of a URL keep their order. An item gets a row exactly if some item of its URL
      comes before any with a blank one, and it has no link, or nothing is stored under its URL and link and no earlier
      item has both. */
  lemma NewRowsAreItems(t: Tables, request: nat, items: seq<Item>) returns (from: seq<nat>)
    requires Valid(t)
    ensures var t' := Persist(t, request, items).tables;
            && t.items <= t'.items && |t'.items| == |t.items| + |from|
            && forall k :: 0 <= k < |from| ==>
                 && from[k] < |items|
                 && var row, x := t'.items[|t.items| + k], items[from[k]];
                    && row.columns.title == x.title && row.columns.source == x.source
                    && row.columns.sourceURL == x.sourceURL && row.columns.link == x.link
                    && row.columns.description == x.description
                    && row.columns.publishDate == (if x.publishDate == None then x.date else x.publishDate)
                    && exists f :: f in t'.feeds && f.id == row.feed && Some(f.url) == x.sourceURL
    ensures forall j, k :: 0 <= j < k < |from| ==>
              from[j] != from[k] && (items[from[j]].sourceURL == items[from[k]].sourceURL ==> from[j] < from[k])
    ensures forall i :: 0 <= i < |items| ==>
              (i in from <==>
               && (exists p :: 0 <= p < |items| && items[p].sourceURL == items[i].sourceURL
                               && forall q :: 0 <= q <= p ==> !Blank(items[q].sourceURL))
               && (|| items[i].link.None?
                   || (&& Lookup(t, items[i].sourceURL.value, items[i].link.value).None?
                       && !exists j :: 0 <= j < i && items[j].sourceURL == items[i].sourceURL
                                       && items[j].link == items[i].link)))
  {
    SourcesAreDistinct(items);
    from := Origins(t, request, items, Sources(items));
    AllRows(t, request, items, Sources(items));
    var t' := Persist(t, request, items).tables;
    assert Adds(t, t', items, from);
    forall i | 0 <= i < |items|
      ensures i in from <==> GetsARow(t, items, i) && Reached(items, items[i].sourceURL)
    {
      OriginsAre(t, request, items, i);
    }
  }

  lemma {:induction false} FirstOfIsFirst(items: seq<Item>, url: string, link: string, i: nat)
    requires i < |items| && items[i].sourceURL == Some(url) && items[i].link == Some(link)
    requires forall j :: 0 <= j < i ==> items[j].sourceURL != Some(url) || items[j].link != Some(link)
    ensures FirstOf(items, url, link) == Some(ColumnsOf(items[i]))
  {
    var n := |items| - 1;
    if i < n {
      FirstOfIsFirst(items[..n], url, link, i);
    } else {
      FirstOfExists(items[..n], url, link);
    }
  }

  /** What is stored under a URL and a link stays; if nothing is, the first item of the result that has both is stored
      there afterwards, field by field; and if no item has both, nothing is. */
  lemma FirstWinsByField(t: Tables, request: nat, items: seq<Item>, url: string, link: string, i: nat)
    requires Valid(t) && Storable(items) && i <= |items|
    requires forall j :: 0 <= j < i ==> items[j].sourceURL != Some(url) || items[j].link != Some(link)
    requires i < |items| ==> items[i].sourceURL == Some(url) && items[i].link == Some(link)
    ensures var found := Lookup(Persist(t, request, items).tables, url, link);
            if Lookup(t, url, link).Some? then found == Lookup(t, url, link)
            else if i == |items| then found.None?
            else
              && found.Some? && found.value.title == items[i].title && found.value.source == items[i].source
              && found.value.sourceURL == Some(url) && found.value.link == Some(link)
              && found.value.description == items[i].description
              && found.value.publishDate == if items[i].publishDate == None then items[i].date else items[i].publishDate
  {
    FirstWins(t, request, items, url, link);
    if i < |items| {
      FirstOfIsFirst(items, url, link, i);
    } else {
      FirstOfExists(items, url, link);
    }
  }

  /** A request has the feed of a URL. */
  predicate Associated(t: Tables, request: nat, url: string) {
    var feed := FindFeed(t.feeds, url);
    feed.Some? && Join(request, feed.value.id) in t.joins
  }

  lemma OtherFeed(feeds: seq<FeedRow>, url: string, other: string)
    requires UniqueUrls(feeds) && url != other && FindFeed(feeds, url).Some? && FindFeed(feeds, other).Some?
    ensures FindFeed(feeds, url).value.id != FindFeed(feeds, other).value.id
  {
    FindFeedIsARow(feeds, url);
    FindFeedIsARow(feeds, other);
  }

  lemma AssociatedAfterFeed(t: Tables, url: string, title: string, r: nat, other: string)
    requires Valid(t)
    ensures Associated(WithFeed(t, url, title), r, other) <==> Associated(t, r, other)
  {
    FindAfterWithFeed(t, url, title, other);
  }

  lemma AssociatedAfterJoin(t: Tables, request: nat, url: string, r: nat, other: string)
    requires Valid(t) && FindFeed(t.feeds, url).Some?
    ensures Associated(WithJoin(t, Join(request, FindFeed(t.feeds, url).value.id)), r, other)
            <==> Associated(t, r, other) || (r == request && url == other)
  {
    if url != other && FindFeed(t.feeds, other).Some? {
      OtherFeed(t.feeds, url, other);
    }
  }

  lemma AssociatedAfterGroup(t: Tables, request: nat, source: Option<string>, group: seq<Item>, r: nat, url: string)
    requires Valid(t) && group != [] && !Blank(source)
    ensures Associated(PersistGroup(t, request, source, group).tables, r, url)
            <==> Associated(t, r, url) || (r == request && source == Some(url))
  {
    var title := TitleOf(group);
    FeedKeepsValid(t, source.value, title);
    FindAfterWithFeed(t, source.value, title, source.value);
    AssociatedAfterFeed(t, source.value, title, r, url);
    AssociatedAfterJoin(WithFeed(t, source.value, title), request, source.value, r, url);
  }

  lemma {:induction false} AssociatedAfterGroups(
    t: Tables, request: nat, items: seq<Item>, sources: seq<Option<string>>, r: nat, url: string
  )
    requires Valid(t) && forall k :: k in sources ==> Group(items, k) != [] && !Blank(k)
    ensures Associated(PersistGroups(t, request, items, sources).tables, r, url)
            <==> Associated(t, r, url) || (r == request && Some(url) in sources)
  {
    if sources != [] {
      var n := |sources| - 1;
      var before := LastGroup(t, request, items, sources);
      AssociatedAfterGroups(t, request, items, sources[..n], r, url);
      AssociatedAfterGroup(before, request, sources[n], Group(items, sources[n]), r, url);
    }
  }

  lemma {:induction false} FeedsAfterGroups(
    t: Tables, request: nat, items: seq<Item>, sources: seq<Option<string>>, url: string
  )
    requires Valid(t) && forall k :: k in sources ==> Group(items, k) != [] && !Blank(k)
    ensures var feed := FindFeed(PersistGroups(t, request, items, sources).tables.feeds, url);
            && (feed.Some? <==> FindFeed(t.feeds, url).Some? || Some(url) in sources)
            && (FindFeed(t.feeds, url).Some? ==> feed == FindFeed(t.feeds, url))
            && (feed.Some? && FindFeed(t.feeds, url).None? ==>
                  Group(items, Some(url)) != [] && feed.value.title == TitleOf(Group(items, Some(url))))
  {
    if sources != [] {
      var n := |sources| - 1;
      var before := LastGroup(t, request, items, sources);
      FeedsAfterGroups(t, request, items, sources[..n], url);
      LookupAfterGroup(before, request, sources[n], Group(items, sources[n]), url, "");
    }
  }

  lemma {:induction false} FirstOfGroup(items: seq<Item>, source: Option<string>)
    ensures Group(items, source) != [] <==> exists x :: x in items && x.sourceURL == source
    ensures Group(items, source) != [] ==>
              exists i :: 0 <= i < |items| && items[i].sourceURL == source && Group(items, source)[0] == items[i]
                          && forall j :: 0 <= j < i ==> items[j].sourceURL != source
  {
    if items != [] {
      var n := |items| - 1;
      FirstOfGroup(items[..n], source);
      InitAndLast(items);
    }
  }

  /** There is a feed for exactly the URLs that had one or are in the result; a new one takes its title from the
      first item of its group; and the request gains exactly the feeds of the result. */
  lemma FeedsAfter(t: Tables, request: nat, items: seq<Item>, url: string, r: nat)
    requires Valid(t) && Storable(items)
    ensures var feed := FindFeed(Persist(t, request, items).tables.feeds, url);
            && (feed.Some? <==> FindFeed(t.feeds, url).Some? || exists x :: x in items && x.sourceURL == Some(url))
            && (FindFeed(t.feeds, url).Some? ==> feed == FindFeed(t.feeds, url))
            && (feed.Some? && FindFeed(t.feeds, url).None? ==>
                  exists i :: 0 <= i < |items| && items[i].sourceURL == Some(url)
                              && (forall j :: 0 <= j < i ==> items[j].sourceURL != Some(url))
                              && feed.value.title == if items[i].source == None then "RSS Source"
                                                     else items[i].source.value)
    ensures Associated(Persist(t, request, items).tables, r, url)
            <==> Associated(t, r, url) || (r == request && exists x :: x in items && x.sourceURL == Some(url))
  {
    FirstOfGroup(items, Some(url));
    SourcesAreDistinct(items);
    GroupMembers(items, Some(url));
    FeedsAfterGroups(t, request, items, Sources(items), url);
    AssociatedAfterGroups(t, request, items, Sources(items), r, url);
    if Group(items, Some(url)) != [] {
      assert Group(items, Some(url))[0] in Group(items, Some(url));
    }
  }

  lemma {:induction false} FirstOfConcat(a: seq<Item>, b: seq<Item>, url: string, link: string)
    ensures FirstOf(a + b, url, link) == Or(FirstOf(a, url, link), FirstOf(b, url, link))
  {
    if b == [] {
      assert a + b == a;
    } else {
      var n := |b| - 1;
      assert (a + b)[..|a + b| - 1] == a + b[..n];
      FirstOfConcat(a, b[..n], url, link);
    }
  }

  /** Two results stored one after the other leave under every key what their concatenation leaves. */
  lemma StoringComposes(t: Tables, request: nat, other: nat, a: seq<Item>, b: seq<Item>, url: string, link: string)
    requires Valid(t) && Storable(a) && Storable(b)
    ensures Lookup(Persist(Persist(t, request, a).tables, other, b).tables, url, link)
        == Lookup(Persist(t, request, a + b).tables, url, link)
  {
    PersistKeepsRows(t, request, a);
    FirstWins(t, request, a, url, link);
    FirstWins(Persist(t, request, a).tables, other, b, url, link);
    FirstWins(t, request, a + b, url, link);
    FirstOfConcat(a, b, url, link);
  }

  /** Which keys are stored does not depend on the order in which two results arrive, nor on the order of their
      items. */
  lemma KeysIgnoreOrder(t: Tables, request: nat, other: nat, a: seq<Item>, b: seq<Item>, c: seq<Item>, url: string,
          link: string)
    requires Valid(t) && Storable(a) && Storable(b) && multiset(c) == multiset(a + b)
    ensures var ab := Persist(Persist(t, request, a).tables, other, b).tables;
            var ba := Persist(Persist(t, other, b).tables, request, a).tables;
            Lookup(ab, url, link).Some? <==> Lookup(ba, url, link).Some?
    ensures Lookup(Persist(Persist(t, request, a).tables, other, b).tables, url, link).Some?
            <==> Lookup(Persist(t, request, c).tables, url, link).Some?
  {
    PermutationMember(c, a + b);
    StoringComposes(t, request, other, a, b, url, link);
    StoringComposes(t, other, request, b, a, url, link);
    FirstWins(t, request, a + b, url, link);
    FirstWins(t, other, b + a, url, link);
    FirstWins(t, request, c, url, link);
    FirstOfExists(a + b, url, link);
    FirstOfExists(b + a, url, link);
    FirstOfExists(c, url, link);
    assert forall x :: x in a + b <==> x in b + a;
  }

  /******* Storing again *******/

  predicate HasFeed(t: Tables, source: Option<string>) {
    source.Some? && FindFeed(t.feeds, source.value).Some?
  }

  function FeedId(t: Tables, source: Option<string>): nat
    requires HasFeed(t, source)
  {
    FindFeed(t.feeds, source.value).value.id
  }

  /** The feed exists, belongs to the request, and has every linked item of the group. */
  predicate Present(t: Tables, request: nat, source: Option<string>, group: seq<Item>) {
    && HasFeed(t, source)
    && !Blank(source)
    && Join(request, FindFeed(t.feeds, source.value).value.id) in t.joins
    && forall x :: x in group && x.link.Some? ==> Lookup(t, source.value, x.link.value).Some?
  }

  predicate Linkless(item: Item) {
    item.link.None?
  }

  /** The rows of a group's items without a link, which nothing conflicts with. */
  function LinklessRows(feed: nat, group: seq<Item>): seq<ItemRow> {
    if group == [] then []
    else
      var n := |group| - 1;
      LinklessRows(feed, group[..n]) + if Linkless(group[n]) then [ItemRow(feed, ColumnsOf(group[n]))] else []
  }

  /** The rows that follow `t`'s when the groups of some sources are stored again. */
  function Again(t: Tables, items: seq<Item>, sources: seq<Option<string>>): seq<ItemRow>
    requires forall k :: k in sources ==> HasFeed(t, k)
  {
    if sources == [] then t.items
    else
      var n := |sources| - 1;
      assert sources[n] in sources;
      Again(t, items, sources[..n]) + LinklessRows(FeedId(t, sources[n]), Group(items, sources[n]))
  }

  lemma {:induction false} InsertAllAgain(rows: seq<ItemRow>, feed: nat, group: seq<Item>)
    requires forall x :: x in group && x.link.Some? ==> FindItem(rows, feed, x.link.value).Some?
    ensures InsertAll(rows, feed, group) == rows + LinklessRows(feed, group)
  {
    if group != [] {
      var n := |group| - 1;
      InsertAllAgain(rows, feed, group[..n]);
      assert group[n] in group;
      if group[n].link.Some? {
        FindAfterInsertAll(rows, feed, group[..n], feed, group[n].link.value);
      }
    }
  }

  lemma {:induction false} FirstWithExists(group: seq<Item>, x: Item)
    requires x in group && x.link.Some?
    ensures FirstWith(group, x.link.value).Some?
  {
    var n := |group| - 1;
    if x != group[n] {
      FirstWithExists(group[..n], x);
    }
  }

  /** Storing a group makes it present, and keeps present what was. */
  lemma PresentAfterGroup(
    t: Tables, request: nat, source: Option<string>, group: seq<Item>, other: Option<string>, others: seq<Item>
  )
    requires Valid(t) && group != [] && !Blank(source)
    requires Present(t, request, other, others) || (other == source && others == group)
    ensures Present(PersistGroup(t, request, source, group).tables, request, other, others)
  {
    var t' := PersistGroup(t, request, source, group).tables;
    GroupKeepsValid(t, request, source, group);
    LookupAfterGroup(t, request, source, group, other.value, "");
    forall x | x in others && x.link.Some?
      ensures Lookup(t', other.value, x.link.value).Some?
    {
      LookupAfterGroup(t, request, source, group, other.value, x.link.value);
      if !Present(t, request, other, others) {
        FirstWithExists(group, x);
      }
    }
    FindAfterWithFeed(t, source.value, TitleOf(group), source.value);
  }

  lemma {:induction false} PresentAfterGroups(
    t: Tables, request: nat, items: seq<Item>, sources: seq<Option<string>>, k: Option<string>
  )
    requires Valid(t) && forall k :: k in sources ==> Group(items, k) != [] && !Blank(k)
    requires k in sources
    ensures Present(PersistGroups(t, request, items, sources).tables, request, k, Group(items, k))
  {
    var n := |sources| - 1;
    var before := LastGroup(t, request, items, sources);
    if k in sources[..n] {
      PresentAfterGroups(t, request, items, sources[..n], k);
    }
    PresentAfterGroup(before, request, sources[n], Group(items, sources[n]), k, Group(items, k));
  }

  lemma FindItemInPrefix(a: seq<ItemRow>, b: seq<ItemRow>, feed: nat, link: string)
    requires FindItem(a, feed, link).Some? && a <= b
    ensures FindItem(b, feed, link).Some?
  {
    FindItemIsARow(a, feed, link);
    FindItemIsARow(b, feed, link);
    var i :| 0 <= i < |a| && a[i].feed == feed && a[i].columns.link == Some(link);
    assert b[i] == a[i];
  }

  lemma GroupAgain(t: Tables, rows: seq<ItemRow>, request: nat, source: Option<string>, group: seq<Item>)
    requires group != [] && Present(t, request, source, group) && t.items <= rows
    ensures PersistGroup(t.(items := rows), request, source, group)
         == Outcome(t.(items := rows + LinklessRows(FeedId(t, source), group)), true)
  {
    var feed := FeedId(t, source);
    forall x | x in group && x.link.Some?
      ensures FindItem(rows, feed, x.link.value).Some?
    {
      FindItemInPrefix(t.items, rows, feed, x.link.value);
    }
    InsertAllAgain(rows, feed, group);
  }

  lemma {:induction false} GroupsAgain(t: Tables, request: nat, items: seq<Item>, sources: seq<Option<string>>)
    requires forall k :: k in sources ==>
        HasFeed(t, k) && Group(items, k) != [] && Present(t, request, k, Group(items, k))
    ensures t.items <= Again(t, items, sources)
    ensures PersistGroups(t, request, items, sources) == Outcome(t.(items := Again(t, items, sources)), true)
  {
    if sources != [] {
      var n := |sources| - 1;
      var k := sources[n];
      assert k in sources;
      GroupsAgain(t, request, items, sources[..n]);
      GroupAgain(t, Again(t, items, sources[..n]), request, k, Group(items, k));
    }
  }

  /** How many items without a link the groups of some sources hold. */
  function GroupedLinkless(items: seq<Item>, sources: seq<Option<string>>): nat {
    if sources == [] then 0
    else Tally(Linkless, Group(items, sources[0])) + GroupedLinkless(items, sources[1..])
  }

  lemma GroupAppend(items: seq<Item>, x: Item, source: Option<string>)
    ensures Group(items + [x], source)
        == if x.sourceURL == source then Group(items, source) + [x] else Group(items, source)
  {
    assert (items + [x])[..|items|] == items;
  }

  lemma {:induction false} GroupedLinklessAppend(items: seq<Item>, x: Item, sources: seq<Option<string>>)
    requires Distinct(sources)
    ensures GroupedLinkless(items + [x], sources)
        == GroupedLinkless(items, sources) + One(Linkless(x) && x.sourceURL in sources)
  {
    if sources != [] {
      GroupedLinklessAppend(items, x, sources[1..]);
      GroupAppend(items, x, sources[0]);
      TallyAppend(Linkless, Group(items, sources[0]), x);
      assert x.sourceURL in sources <==> x.sourceURL == sources[0] || x.sourceURL in sources[1..];
    }
  }

  /** The groups of a result's sources hold each of its items once. */
  lemma {:induction false} GroupsPartition(items: seq<Item>, sources: seq<Option<string>>)
    requires Distinct(sources) && forall x :: x in items ==> x.sourceURL in sources
    ensures GroupedLinkless(items, sources) == Tally(Linkless, items)
  {
    if items == [] {
      NothingGrouped(sources);
    } else {
      var n := |items| - 1;
      assert items == items[..n] + [items[n]];
      GroupsPartition(items[..n], sources);
      GroupedLinklessAppend(items[..n], items[n], sources);
      TallyAppend(Linkless, items[..n], items[n]);
    }
  }

  lemma {:induction false} NothingGrouped(sources: seq<Option<string>>)
    ensures GroupedLinkless([], sources) == 0
  {
    if sources != [] {
      NothingGrouped(sources[1..]);
    }
  }

  lemma {:induction false} LinklessRowsCount(feed: nat, group: seq<Item>)
    ensures |LinklessRows(feed, group)| == Tally(Linkless, group)
  {
    if group != [] {
      var n := |group| - 1;
      LinklessRowsCount(feed, group[..n]);
      TallyAppend(Linkless, group[..n], group[n]);
      assert group == group[..n] + [group[n]];
    }
  }

  lemma {:induction false} GroupedLinklessSnoc(items: seq<Item>, sources: seq<Option<string>>, k: Option<string>)
    ensures GroupedLinkless(items, sources + [k]) == GroupedLinkless(items, sources) + Tally(Linkless, Group(items, k))
  {
    if sources == [] {
      assert [k][1..] == [];
    } else {
      assert (sources + [k])[1..] == sources[1..] + [k];
      GroupedLinklessSnoc(items, sources[1..], k);
    }
  }

  lemma {:induction false} AgainCount(t: Tables, items: seq<Item>, sources: seq<Option<string>>)
    requires forall k :: k in sources ==> HasFeed(t, k)
    ensures |Again(t, items, sources)| == |t.items| + GroupedLinkless(items, sources)
  {
    if sources != [] {
      var n := |sources| - 1;
      assert sources[n] in sources;
      AgainCount(t, items, sources[..n]);
      LinklessRowsCount(FeedId(t, sources[n]), Group(items, sources[n]));
      GroupedLinklessSnoc(items, sources[..n], sources[n]);
      assert sources == sources[..n] + [sources[n]];
    }
  }

  /** Storing a result again adds a row for each of its items without a link and changes nothing else;
      so it changes nothing at all if and only if every item has a link. */
  lemma StoringAgain(t: Tables, request: nat, items: seq<Item>)
    requires Valid(t) && Storable(items)
    ensures var once := Persist(t, request, items).tables;
            var twice := Persist(once, request, items).tables;
            && twice == once.(items := twice.items)
            && once.items <= twice.items
            && |twice.items| == |once.items| + Tally(Linkless, items)
            && (twice == once <==> forall x :: x in items ==> x.link.Some?)
  {
    SourcesAreDistinct(items);
    var once, sources := Persist(t, request, items).tables, Sources(items);
    forall k | k in sources
      ensures HasFeed(once, k) && Group(items, k) != [] && Present(once, request, k, Group(items, k))
    {
      PresentAfterGroups(t, request, items, sources, k);
    }
    GroupsAgain(once, request, items, sources);
    AgainCount(once, items, sources);
    GroupsPartition(items, sources);
    SomeLinkless(items);
  }

  lemma {:induction false} SomeLinkless(items: seq<Item>)
    ensures Tally(Linkless, items) == 0 <==> forall x :: x in items ==> x.link.Some?
  {
    if items != [] {
      SomeLinkless(items[1..]);
      assert items == [items[0]] + items[1..];
    }
  }
}
