/** The items a feed yields, and how a batch of them is deduplicated and sorted. */
module FeedItems {
  import opened Base
  import opened Dates
  import opened Sequences

  datatype RssItem = RssItem(
    title: string,
    source: string,
    sourceURL: string,
    link: string,
    publishDate: Date,
    description: string
  )

  /******* Deduplication *******/

  /** The non-empty links of a batch. */
  function Links(items: seq<RssItem>): set<string> {
    set i | 0 <= i < |items| && items[i].link != "" :: items[i].link
  }

  /** The last item of a non-empty batch survives if it has no link or a new one. */
  predicate LastSurvives(items: seq<RssItem>)
    requires items != []
  {
    items[|items| - 1].link == "" || items[|items| - 1].link !in Links(items[..|items| - 1])
  }

  function Dedup(items: seq<RssItem>): seq<RssItem> {
    if items == [] then []
    else
      var n := |items| - 1;
      Dedup(items[..n]) + if LastSurvives(items) then [items[n]] else []
  }

  method Deduplicate(items: seq<RssItem>) returns (out: seq<RssItem>)
    ensures out == Dedup(items)
  {
    var seen: set<string> := {};
    out := [];
    for i := 0 to |items|
      invariant seen == Links(items[..i])
      invariant out == Dedup(items[..i])
    {
      var item := items[i];
      assert items[..i + 1][..i] == items[..i];
      LinksAppend(items[..i], item);
      assert items[..i + 1] == items[..i] + [item];
      if item.link == "" {
        out := out + [item];
      } else if item.link !in seen {
        seen := seen + {item.link};
        out := out + [item];
      }
    }
    assert items[..|items|] == items;
  }

  lemma LinksAppend(items: seq<RssItem>, item: RssItem)
    ensures Links(items + [item]) == Links(items) + if item.link != "" then {item.link} else {}
  {
    var all := items + [item];
    forall l | l in Links(items)
      ensures l in Links(all)
    {
      var i :| 0 <= i < |items| && items[i].link != "" && items[i].link == l;
      assert all[i].link == l;
    }
    if item.link != "" {
      assert all[|items|].link == item.link;
    }
  }

  function Linkless(items: seq<RssItem>): seq<RssItem> {
    if items == [] then []
    else
      var n := |items| - 1;
      Linkless(items[..n]) + if items[n].link == "" then [items[n]] else []
  }

  /** The first item of a batch with a given link. */
  function First(items: seq<RssItem>, link: string): Option<RssItem> {
    if items == [] then None
    else if items[0].link == link then Some(items[0])
    else First(items[1..], link)
  }

  lemma {:induction false} FirstAppend(items: seq<RssItem>, item: RssItem, link: string)
    ensures First(items + [item], link)
         == if First(items, link).Some? then First(items, link) else if item.link == link then Some(item) else None
  {
    if items == [] {
      assert [item][1..] == [];
    } else {
      assert (items + [item])[1..] == items[1..] + [item];
      FirstAppend(items[1..], item, link);
    }
  }

  lemma {:induction false} FirstExists(items: seq<RssItem>, link: string)
    requires link != ""
    ensures First(items, link).Some? <==> link in Links(items)
    ensures First(items, link).Some? ==> First(items, link).value in items && First(items, link).value.link == link
  {
    if items != [] {
      var n := |items| - 1;
      FirstExists(items[..n], link);
      FirstAppend(items[..n], items[n], link);
      LinksAppend(items[..n], items[n]);
      assert items == items[..n] + [items[n]];
    }
  }

  predicate DistinctLinks(items: seq<RssItem>) {
    forall i, j :: 0 <= i < j < |items| && items[i].link != "" ==> items[i].link != items[j].link
  }

  /** A sequence obtained from another by leaving elements out. */
  predicate Subsequence<T(==)>(a: seq<T>, b: seq<T>) {
    if a == [] then true
    else if b == [] then false
    else (a[|a| - 1] == b[|b| - 1] && Subsequence(a[..|a| - 1], b[..|b| - 1])) || Subsequence(a, b[..|b| - 1])
  }

  /** Deduplication keeps every link and, in order, every linkless item; its length is determined by them. */
  lemma {:induction false} DedupKeeps(items: seq<RssItem>)
    ensures Links(Dedup(items)) == Links(items)
    ensures Linkless(Dedup(items)) == Linkless(items)
    ensures |Dedup(items)| == |Linkless(items)| + |Links(items)|
  {
    if items != [] {
      var n := |items| - 1;
      var before, x, kept := items[..n], items[n], Dedup(items[..n]);
      DedupKeeps(before);
      assert items == before + [x];
      LinksAppend(before, x);
      LinksAppend(kept, x);
      if LastSurvives(items) {
        assert Dedup(items) == kept + [x] && (kept + [x])[..|kept|] == kept;
      } else {
        assert Dedup(items) == kept;
        assert Links(items) == Links(before);
      }
    }
  }

  lemma DistinctAppend(items: seq<RssItem>, x: RssItem)
    requires DistinctLinks(items) && (x.link == "" || x.link !in Links(items))
    ensures DistinctLinks(items + [x])
  {
    forall i | 0 <= i < |items| && items[i].link != ""
      ensures items[i].link != x.link
    {
      assert items[i].link in Links(items);
    }
  }

  /** No link survives twice, and what survives stays in order. */
  lemma {:induction false} DedupIsDistinct(items: seq<RssItem>)
    ensures DistinctLinks(Dedup(items))
    ensures Subsequence(Dedup(items), items)
  {
    if items != [] {
      var n := |items| - 1;
      var kept := Dedup(items[..n]);
      DedupIsDistinct(items[..n]);
      if LastSurvives(items) {
        DedupKeeps(items[..n]);
        DistinctAppend(kept, items[n]);
        assert Dedup(items) == kept + [items[n]] && (kept + [items[n]])[..|kept|] == kept;
      } else {
        assert Dedup(items) == kept;
      }
    }
  }

  predicate FirstOfItsLink(items: seq<RssItem>, x: RssItem) {
    x.link == "" || First(items, x.link) == Some(x)
  }

  /** What survives is exactly the linkless items and the first item of each link. */
  lemma {:induction false} DedupMembers(items: seq<RssItem>, y: RssItem)
    ensures y in Dedup(items) <==> y in items && FirstOfItsLink(items, y)
  {
    if items != [] {
      var n := |items| - 1;
      var before, x := items[..n], items[n];
      assert items == before + [x];
      DedupMembers(before, y);
      FirstAppend(before, x, y.link);
      if y.link != "" {
        FirstExists(before, y.link);
      }
    }
  }

  /** An earlier item has the same link. */
  predicate Repeats(items: seq<RssItem>, i: nat)
    requires i < |items|
  {
    items[i].link != "" && exists j :: 0 <= j < i && items[j].link == items[i].link
  }

  lemma LastRepeats(items: seq<RssItem>)
    requires items != []
    ensures Repeats(items, |items| - 1) <==> !LastSurvives(items)
  {
    var n := |items| - 1;
    if j :| 0 <= j < n && items[j].link == items[n].link && items[n].link != "" {
      assert items[..n][j].link == items[n].link;
    }
  }

  lemma RepeatsInPrefix(items: seq<RssItem>, n: nat, i: nat)
    requires i < n <= |items|
    ensures Repeats(items[..n], i) <==> Repeats(items, i)
  {
    if j :| 0 <= j < i && items[j].link == items[i].link {
      assert items[..n][j].link == items[i].link;
    }
  }

  lemma {:induction false} DedupIsLaidOut(items: seq<RssItem>, kept: seq<seq<RssItem>>)
    requires |kept| == |items|
    requires forall i :: 0 <= i < |items| ==> kept[i] == if Repeats(items, i) then [] else [items[i]]
    ensures LaidOut(Dedup(items), kept)
  {
    if items != [] {
      var n := |items| - 1;
      var before, last := items[..n], kept[n];
      forall i | 0 <= i < n
        ensures kept[..n][i] == if Repeats(before, i) then [] else [before[i]]
      {
        RepeatsInPrefix(items, n, i);
      }
      DedupIsLaidOut(before, kept[..n]);
      LaidOutAppend(Dedup(before), kept[..n], last);
      LastRepeats(items);
      assert kept == kept[..n] + [last];
    }
  }

  /** Every item in its place: one survives unless it has a link that an earlier item has too. */
  lemma DedupByPosition(items: seq<RssItem>, kept: seq<seq<RssItem>>)
    requires |kept| == |items|
    requires forall i :: 0 <= i < |items| ==>
               kept[i] == if items[i].link != "" && exists j :: 0 <= j < i && items[j].link == items[i].link then []
                          else [items[i]]
    ensures LaidOut(Dedup(items), kept)
  {
    forall i | 0 <= i < |items|
      ensures kept[i] == if Repeats(items, i) then [] else [items[i]]
    {
    }
    DedupIsLaidOut(items, kept);
  }

  lemma LastIsNew(items: seq<RssItem>)
    requires items != [] && DistinctLinks(items)
    ensures LastSurvives(items)
  {
    var n := |items| - 1;
    forall l | l in Links(items[..n])
      ensures l != items[n].link
    {
      var i :| 0 <= i < n && items[..n][i].link != "" && items[..n][i].link == l;
      assert items[i].link == l;
    }
  }

  lemma {:induction false} DistinctIsFixed(items: seq<RssItem>)
    requires DistinctLinks(items)
    ensures Dedup(items) == items
  {
    if items != [] {
      var n := |items| - 1;
      DistinctIsFixed(items[..n]);
      LastIsNew(items);
      assert items == items[..n] + [items[n]];
    }
  }

  /** Deduplicating again changes nothing. */
  lemma DedupIsIdempotent(items: seq<RssItem>)
    ensures Dedup(Dedup(items)) == Dedup(items)
  {
    DedupIsDistinct(items);
    DistinctIsFixed(Dedup(items));
  }

  /******* Sorting *******/

  /** The comparator: newer dates first, items without a date last. */
  predicate Less(a: RssItem, b: RssItem) {
    if IsZero(a.publishDate) then false
    else if IsZero(b.publishDate) then true
    else After(a.publishDate, b.publishDate)
  }

  /** The comparator is a strict weak order, on all dates, so the sort is well defined. */
  lemma LessIsStrictWeakOrder(a: RssItem, b: RssItem, c: RssItem)
    ensures !Less(a, a)
    ensures Less(a, b) ==> !Less(b, a)
    ensures Less(a, b) && Less(b, c) ==> Less(a, c)
    ensures !Less(a, b) && !Less(b, c) ==> !Less(a, c)
  {
  }

  predicate Ordered(items: seq<RssItem>) {
    forall i, j :: 0 <= i < j < |items| ==> !Less(items[j], items[i])
  }

  /** The result of sorting: any ordered permutation, since the library's sort is not stable. */
  predicate Sorts(before: seq<RssItem>, after: seq<RssItem>) {
    multiset(before) == multiset(after) && Ordered(after)
  }

  /** What the library's sort asks of a comparator. */
  ghost predicate StrictWeakOrder<T(!new)>(less: (T, T) -> bool) {
    && (forall x :: !less(x, x))
    && (forall x, y, z :: less(x, y) && less(y, z) ==> less(x, z))
    && (forall x, y, z :: !less(x, y) && !less(y, z) ==> !less(x, z))
  }

  /** The library's sort, in place. It promises no more than an ordered permutation; insertion stands for its
      algorithm. */
  method SortSlice<T(!new)>(a: array<T>, less: (T, T) -> bool)
    requires StrictWeakOrder(less)
    modifies a
    ensures multiset(a[..]) == old(multiset(a[..]))
    ensures forall p, q :: 0 <= p < q < a.Length ==> !less(a[q], a[p])
  {
    for i := 0 to a.Length
      invariant multiset(a[..]) == old(multiset(a[..]))
      invariant forall p, q :: 0 <= p < q < i ==> !less(a[q], a[p])
    {
      Sift(a, less, i);
    }
  }

  method SwapDown<T>(a: array<T>, j: nat)
    requires 0 < j < a.Length
    modifies a
    ensures multiset(a[..]) == old(multiset(a[..]))
    ensures a[j] == old(a[j - 1]) && a[j - 1] == old(a[j])
    ensures forall k :: 0 <= k < a.Length && k != j && k != j - 1 ==> a[k] == old(a[k])
  {
    a[j], a[j - 1] := a[j - 1], a[j];
  }

  /** Moves an element down into the ordered part before it. */
  method Sift<T(!new)>(a: array<T>, less: (T, T) -> bool, i: nat)
    requires StrictWeakOrder(less)
    requires i < a.Length && forall p, q :: 0 <= p < q < i ==> !less(a[q], a[p])
    modifies a
    ensures multiset(a[..]) == old(multiset(a[..]))
    ensures forall p, q :: 0 <= p < q <= i ==> !less(a[q], a[p])
  {
    var j := i;
    while j > 0 && less(a[j], a[j - 1])
      invariant 0 <= j <= i
      invariant multiset(a[..]) == old(multiset(a[..]))
      invariant forall p, q :: 0 <= p < q <= i && q != j ==> !less(a[q], a[p])
    {
      SwapDown(a, j);
      j := j - 1;
    }
  }

  /** Sorts the items by the comparator, in place. */
  method SortItems(a: array<RssItem>)
    modifies a
    ensures Sorts(old(a[..]), a[..])
  {
    forall x, y, z
      ensures !Less(x, x)
      ensures Less(x, y) && Less(y, z) ==> Less(x, z)
      ensures !Less(x, y) && !Less(y, z) ==> !Less(x, z)
    {
      LessIsStrictWeakOrder(x, y, z);
    }
    SortSlice(a, Less);
  }

  /** Where an item belongs in an ordered batch. */
  function Place(x: RssItem, items: seq<RssItem>): (k: nat)
    ensures k <= |items| && forall i :: 0 <= i < k ==> !Less(x, items[i])
    ensures k < |items| ==> Less(x, items[k])
  {
    if items == [] || Less(x, items[0]) then 0 else 1 + Place(x, items[1..])
  }

  lemma PlacedIsOrdered(x: RssItem, items: seq<RssItem>)
    requires Ordered(items)
    ensures var k := Place(x, items); Ordered(items[..k] + [x] + items[k..])
  {
    var k := Place(x, items);
    forall j | k <= j < |items|
      ensures !Less(items[j], x)
    {
      LessIsStrictWeakOrder(items[j], x, items[k]);
      LessIsStrictWeakOrder(x, items[j], x);
    }
    var placed := items[..k] + [x] + items[k..];
    forall i, j | 0 <= i < j < |placed|
      ensures !Less(placed[j], placed[i])
    {
      assert placed[i] == (if i < k then items[i] else if i == k then x else items[i - 1]);
      assert placed[j] == (if j < k then items[j] else if j == k then x else items[j - 1]);
    }
  }

  lemma PlacedIsPermutation(items: seq<RssItem>, rest: seq<RssItem>, k: nat)
    requires items != [] && multiset(items[1..]) == multiset(rest) && k <= |rest|
    ensures multiset(items) == multiset(rest[..k] + [items[0]] + rest[k..])
  {
    assert items == [items[0]] + items[1..] && rest == rest[..k] + rest[k..];
  }

  /** Every batch can be sorted. */
  lemma {:induction false} SortExists(items: seq<RssItem>) returns (sorted: seq<RssItem>)
    ensures Sorts(items, sorted)
  {
    if items == [] {
      sorted := [];
    } else {
      var rest := SortExists(items[1..]);
      var k := Place(items[0], rest);
      PlacedIsOrdered(items[0], rest);
      sorted := rest[..k] + [items[0]] + rest[k..];
      PlacedIsPermutation(items, rest, k);
    }
  }

  /** Ordered means: newest first, and no dated item after an undated one. */
  lemma OrderedIsNewestFirst(items: seq<RssItem>)
    ensures Ordered(items) <==>
            forall i, j :: 0 <= i < j < |items| && items[j].publishDate != Date(0, 0, 0) ==>
              items[i].publishDate != Date(0, 0, 0) && !Before(items[i].publishDate, items[j].publishDate)
  {
  }

  /** A batch of calendar dates and missing dates is ordered exactly if no item comes after one of an earlier day, and
      no dated item after one without a date. */
  lemma OrderedByCalendar(items: seq<RssItem>)
    requires forall x :: x in items ==> Valid(x.publishDate) || x.publishDate == Date(0, 0, 0)
    ensures Ordered(items) <==>
            forall i, j :: 0 <= i < j < |items| && items[j].publishDate != Date(0, 0, 0) ==>
              var d, u := items[i].publishDate, items[j].publishDate;
              && d != Date(0, 0, 0)
              && (d.year > u.year
                  || (d.year == u.year && (d.month > u.month || (d.month == u.month && d.day >= u.day))))
  {
    forall i, j | 0 <= i < j < |items| && items[i].publishDate != Date(0, 0, 0)
                  && items[j].publishDate != Date(0, 0, 0)
      ensures Less(items[j], items[i]) <==> Earlier(items[i].publishDate, items[j].publishDate)
    {
      assert items[i] in items && items[j] in items;
      CalendarOrder(items[i].publishDate, items[j].publishDate);
    }
  }

  /** The sort key of an item. */
  datatype Rank = Undated | On(day: int)

  function RankOf(item: RssItem): Rank {
    if IsZero(item.publishDate) then Undated else On(Time(item.publishDate))
  }

  predicate Above(a: Rank, b: Rank) {
    a.On? && (b.Undated? || a.day > b.day)
  }

  predicate Descending(s: seq<Rank>) {
    forall i, j :: 0 <= i < j < |s| ==> !Above(s[j], s[i])
  }

  lemma SameTop(a: seq<Rank>, b: seq<Rank>)
    requires a != [] && b != [] && multiset(a) == multiset(b) && Descending(a) && Descending(b)
    ensures a[0] == b[0]
  {
    PermutationMember(a, b);
    assert a[0] in a && b[0] in b;
    var i :| 0 <= i < |b| && b[i] == a[0];
    var j :| 0 <= j < |a| && a[j] == b[0];
    assert !Above(b[i], b[0]) && !Above(a[j], a[0]);
  }

  lemma {:induction false} DescendingIsUnique(a: seq<Rank>, b: seq<Rank>)
    requires multiset(a) == multiset(b) && Descending(a) && Descending(b)
    ensures a == b
  {
    PermutationLength(a, b);
    if a != [] {
      SameTop(a, b);
      assert a == [a[0]] + a[1..] && b == [b[0]] + b[1..];
      RemoveOne(a, 0);
      RemoveOne(b, 0);
      assert a[..0] + a[1..] == a[1..] && b[..0] + b[1..] == b[1..];
      DescendingIsUnique(a[1..], b[1..]);
    }
  }

  function Ranks(items: seq<RssItem>): seq<Rank> {
    Map(RankOf, items)
  }

  /** Any two results of sorting permutations of one batch carry the same dates in the same places. */
  lemma SortedDatesAreUnique(x: seq<RssItem>, a: seq<RssItem>, y: seq<RssItem>, b: seq<RssItem>)
    requires multiset(x) == multiset(y) && Sorts(x, a) && Sorts(y, b)
    ensures |a| == |b| && forall i :: 0 <= i < |a| ==> RankOf(a[i]) == RankOf(b[i])
    ensures (forall item :: item in x ==> Valid(item.publishDate) || IsZero(item.publishDate)) ==>
            forall i :: 0 <= i < |a| ==> a[i].publishDate == b[i].publishDate
  {
    PermutationLength(a, b);
    PermutationMap(RankOf, a, b);
    MapAt(RankOf, a);
    MapAt(RankOf, b);
    DescendingIsUnique(Ranks(a), Ranks(b));
    assert forall i :: 0 <= i < |a| ==> RankOf(a[i]) == Ranks(a)[i] == Ranks(b)[i] == RankOf(b[i]);
    if forall item :: item in x ==> Valid(item.publishDate) || IsZero(item.publishDate) {
      PermutationMember(x, a);
      PermutationMember(y, b);
      PermutationMember(x, y);
      forall i | 0 <= i < |a|
        ensures a[i].publishDate == b[i].publishDate
      {
        assert a[i] in a && b[i] in b && RankOf(a[i]) == RankOf(b[i]);
        if !IsZero(a[i].publishDate) {
          CalendarOrder(a[i].publishDate, b[i].publishDate);
        }
      }
    }
  }
}
