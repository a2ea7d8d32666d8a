/** Facts about permutations of sequences, used where the order of arrival is not determined. */
module Sequences {
  import opened Base

  function Map<A, B>(f: A -> B, s: seq<A>): seq<B> {
    if s == [] then [] else [f(s[0])] + Map(f, s[1..])
  }

  lemma {:induction false} MapConcat<A, B>(f: A -> B, a: seq<A>, b: seq<A>)
    ensures Map(f, a + b) == Map(f, a) + Map(f, b)
  {
    if a == [] {
      assert a + b == b;
    } else {
      assert (a + b)[0] == a[0] && (a + b)[1..] == a[1..] + b;
      MapConcat(f, a[1..], b);
    }
  }

  lemma RemoveOne<A>(s: seq<A>, i: nat)
    requires i < |s|
    ensures multiset(s[..i] + s[i + 1..]) == multiset(s) - multiset{s[i]}
  {
    assert s == s[..i] + [s[i]] + s[i + 1..];
  }

  /** Finds the head of one permutation in the other and cuts both there. */
  lemma CutPermutation<A>(a: seq<A>, b: seq<A>) returns (j: nat)
    requires a != [] && multiset(a) == multiset(b)
    ensures j < |b| && b[j] == a[0] && b == b[..j] + ([b[j]] + b[j + 1..])
    ensures multiset(a[1..]) == multiset(b[..j] + b[j + 1..])
  {
    assert a == [a[0]] + a[1..];
    assert a[0] in multiset(b);
    assert a[0] in b;
    j :| 0 <= j < |b| && b[j] == a[0];
    assert b == b[..j] + ([b[j]] + b[j + 1..]);
    RemoveOne(b, j);
    RemoveOne(a, 0);
    assert a[..0] + a[1..] == a[1..];
  }

  lemma {:induction false} PermutationMap<A, B>(f: A -> B, a: seq<A>, b: seq<A>)
    requires multiset(a) == multiset(b)
    ensures multiset(Map(f, a)) == multiset(Map(f, b))
  {
    if a == [] {
      assert |multiset(b)| == |b|;
    } else {
      var j := CutPermutation(a, b);
      var x, y := b[..j], b[j + 1..];
      PermutationMap(f, a[1..], x + y);
      MapConcat(f, x, y);
      MapConcat(f, x, [b[j]] + y);
      assert ([b[j]] + y)[1..] == y;
    }
  }

  /** Concatenates the sequences `f` gives. */
  function FlatMap<A, B>(f: A -> seq<B>, s: seq<A>): seq<B> {
    if s == [] then [] else f(s[0]) + FlatMap(f, s[1..])
  }

  lemma {:induction false} FlatMapConcat<A, B>(f: A -> seq<B>, a: seq<A>, b: seq<A>)
    ensures FlatMap(f, a + b) == FlatMap(f, a) + FlatMap(f, b)
  {
    if a == [] {
      assert a + b == b;
    } else {
      assert (a + b)[0] == a[0] && (a + b)[1..] == a[1..] + b;
      FlatMapConcat(f, a[1..], b);
    }
  }

  lemma {:induction false} PermutationFlatMap<A, B>(f: A -> seq<B>, a: seq<A>, b: seq<A>)
    requires multiset(a) == multiset(b)
    ensures multiset(FlatMap(f, a)) == multiset(FlatMap(f, b))
  {
    if a == [] {
      assert |multiset(b)| == |b|;
    } else {
      var j := CutPermutation(a, b);
      var x, y := b[..j], b[j + 1..];
      PermutationFlatMap(f, a[1..], x + y);
      FlatMapConcat(f, x, y);
      FlatMapConcat(f, x, [b[j]] + y);
      assert ([b[j]] + y)[1..] == y;
    }
  }

  lemma PermutationLength<A>(a: seq<A>, b: seq<A>)
    requires multiset(a) == multiset(b)
    ensures |a| == |b|
  {
    assert |multiset(a)| == |a| && |multiset(b)| == |b|;
  }

  lemma PermutationMember<A>(a: seq<A>, b: seq<A>)
    requires multiset(a) == multiset(b)
    ensures forall x :: x in a <==> x in b
  {
    forall x
      ensures x in a <==> x in b
    {
      assert x in a <==> x in multiset(a);
      assert x in b <==> x in multiset(b);
    }
  }

  lemma TakeOneMore<A>(a: seq<A>, b: seq<A>, k: nat)
    requires 0 < k <= |b|
    ensures a + b[..k] == a + b[..k - 1] + [b[k - 1]]
  {
    assert b[..k] == b[..k - 1] + [b[k - 1]];
  }

  lemma ConcatAppend<A>(a: seq<A>, b: seq<A>, x: A)
    ensures (a + b) + [x] == a + (b + [x])
  {
  }

  lemma InitAndLast<A>(s: seq<A>)
    requires s != []
    ensures forall x :: x in s <==> x in s[..|s| - 1] || x == s[|s| - 1]
  {
    assert s == s[..|s| - 1] + [s[|s| - 1]];
  }

  /******* Blocks one after the other *******/

  /** The total length of the first `k` blocks, which is where the next one begins. */
  function Start<A>(blocks: seq<seq<A>>, k: nat): nat
    requires k <= |blocks|
  {
    if k == 0 then 0 else Start(blocks, k - 1) + |blocks[k - 1]|
  }

  predicate StandsAt<A(==)>(block: seq<A>, whole: seq<A>, i: nat) {
    i + |block| <= |whole| && forall j :: 0 <= j < |block| ==> block[j] == whole[i + j]
  }

  predicate InPlace<A(==)>(whole: seq<A>, blocks: seq<seq<A>>, k: nat)
    requires k < |blocks|
  {
    StandsAt(blocks[k], whole, Start(blocks, k))
  }

  /** The sequence consists of the blocks, each in its place, and nothing else. */
  predicate LaidOut<A(==)>(whole: seq<A>, blocks: seq<seq<A>>) {
    && |whole| == Start(blocks, |blocks|)
    && forall k :: 0 <= k < |blocks| ==> InPlace(whole, blocks, k)
  }

  lemma {:induction false} StartOfPrefix<A>(blocks: seq<seq<A>>, more: seq<seq<A>>, k: nat)
    requires k <= |blocks|
    ensures Start(blocks + more, k) == Start(blocks, k)
  {
    if k > 0 {
      StartOfPrefix(blocks, more, k - 1);
    }
  }

  lemma StandsInLonger<A>(block: seq<A>, whole: seq<A>, more: seq<A>, i: nat)
    requires StandsAt(block, whole, i)
    ensures StandsAt(block, whole + more, i)
  {
  }

  lemma LaidOutAppend<A>(whole: seq<A>, blocks: seq<seq<A>>, more: seq<A>)
    requires LaidOut(whole, blocks)
    ensures LaidOut(whole + more, blocks + [more])
  {
    var n := |blocks|;
    var all, longer := blocks + [more], whole + more;
    StartOfPrefix(blocks, [more], n);
    assert all[n] == more && Start(all, n) == |whole|;
    assert StandsAt(more, longer, |whole|);
    forall k | 0 <= k < |all|
      ensures InPlace(longer, all, k)
    {
      if k < n {
        assert all[k] == blocks[k] && InPlace(whole, blocks, k);
        StartOfPrefix(blocks, [more], k);
        StandsInLonger(blocks[k], whole, more, Start(blocks, k));
      }
    }
  }

  lemma SameBlock<A>(block: seq<A>, a: seq<A>, b: seq<A>, i: nat, j: nat)
    requires StandsAt(block, a, i) && StandsAt(block, b, i) && i <= j < i + |block|
    ensures a[j] == b[j]
  {
    var offset := j - i;
    assert block[offset] == a[i + offset] && block[offset] == b[i + offset];
  }

  lemma {:induction false} SameUpTo<A>(a: seq<A>, b: seq<A>, blocks: seq<seq<A>>, k: nat, j: nat)
    requires LaidOut(a, blocks) && LaidOut(b, blocks) && k <= |blocks| && j < |a| && j < |b| && j < Start(blocks, k)
    ensures a[j] == b[j]
  {
    var i := Start(blocks, k - 1);
    if j < i {
      SameUpTo(a, b, blocks, k - 1, j);
    } else {
      assert InPlace(a, blocks, k - 1) && InPlace(b, blocks, k - 1);
      SameBlock(blocks[k - 1], a, b, i, j);
    }
  }

  /** The blocks determine the sequence. */
  lemma LaidOutIsUnique<A>(a: seq<A>, b: seq<A>, blocks: seq<seq<A>>)
    requires LaidOut(a, blocks) && LaidOut(b, blocks)
    ensures a == b
  {
    forall j | 0 <= j < |a|
      ensures a[j] == b[j]
    {
      SameUpTo(a, b, blocks, |blocks|, j);
    }
  }

  lemma {:induction false} MapAt<A, B>(f: A -> B, s: seq<A>)
    ensures |Map(f, s)| == |s| && forall i :: 0 <= i < |s| ==> Map(f, s)[i] == f(s[i])
  {
    if s != [] {
      MapAt(f, s[1..]);
    }
  }

  lemma {:induction false} FlatMapLaidOut<A, B>(f: A -> seq<B>, s: seq<A>, blocks: seq<seq<B>>)
    requires |blocks| == |s| && forall i :: 0 <= i < |s| ==> blocks[i] == f(s[i])
    ensures LaidOut(FlatMap(f, s), blocks)
  {
    if s != [] {
      var n := |s| - 1;
      FlatMapLaidOut(f, s[..n], blocks[..n]);
      LaidOutAppend(FlatMap(f, s[..n]), blocks[..n], blocks[n]);
      FlatMapConcat(f, s[..n], [s[n]]);
      assert [s[n]][1..] == [] && s == s[..n] + [s[n]];
      assert FlatMap(f, s) == FlatMap(f, s[..n]) + blocks[n] && blocks == blocks[..n] + [blocks[n]];
    }
  }

  /******* Counting *******/

  /** How many elements satisfy `p`. */
  function Tally<A>(p: A -> bool, s: seq<A>): nat {
    if s == [] then 0 else One(p(s[0])) + Tally(p, s[1..])
  }

  lemma {:induction false} TallyUpdate<A>(p: A -> bool, s: seq<A>, i: nat, x: A)
    requires i < |s|
    ensures Tally(p, s[i := x]) + One(p(s[i])) == Tally(p, s) + One(p(x))
  {
    if i == 0 {
      assert s[i := x][1..] == s[1..];
    } else {
      assert s[i := x][1..] == s[1..][i - 1 := x];
      TallyUpdate(p, s[1..], i - 1, x);
    }
  }

  lemma {:induction false} TallyAppend<A>(p: A -> bool, s: seq<A>, x: A)
    ensures Tally(p, s + [x]) == Tally(p, s) + One(p(x))
  {
    if s == [] {
      assert [x][1..] == [];
    } else {
      assert (s + [x])[1..] == s[1..] + [x];
      TallyAppend(p, s[1..], x);
    }
  }

  /** Counting with a weaker property gives no less. */
  lemma {:induction false} TallyMonotone<A>(p: A -> bool, q: A -> bool, s: seq<A>)
    requires forall i :: 0 <= i < |s| && p(s[i]) ==> q(s[i])
    ensures Tally(p, s) <= Tally(q, s)
  {
    if s != [] {
      TallyMonotone(p, q, s[1..]);
    }
  }
}
