/** The normalisation both hosted embedding providers apply to a response: the `data` items are
    ordered by their `index` with `usort` (stable since PHP 8.0) and each is replaced by its
    `embedding`. The sort is specified by a stable insertion sort on sequences and carried out in
    place on an array. */
module EmbeddingResponse {
  import opened Wrappers
  import opened Php

  /** PHP's `\RuntimeException($message, $code, $previous)`, with the previous exception
      represented by its message. */
  datatype RuntimeException = RuntimeException(message: string, code: int, previous: string)

  /** The JSON body both providers post to their embeddings endpoint: the model and the
      texts. */
  function RequestBody(model: string, texts: seq<string>): (d: Dict)
    ensures d.Keys == {"model", "input"}
    ensures d["model"] == JString(model) && d["input"] == StringList(texts)
  {
    map["model" := JString(model), "input" := StringList(texts)]
  }

  /** One element of the response's `data` list. */
  datatype IndexedEmbedding = IndexedEmbedding(index: int, embedding: Json)

  predicate SortedByIndex(s: seq<IndexedEmbedding>) {
    forall i, j :: 0 <= i < j < |s| ==> s[i].index <= s[j].index
  }

  /** Places `x` after every element of `s` whose index is at most its own, scanning from the
      right, so equal indices keep their order. */
  function Insert(x: IndexedEmbedding, s: seq<IndexedEmbedding>): (r: seq<IndexedEmbedding>)
    ensures |r| == |s| + 1
  {
    if s == [] || s[|s| - 1].index <= x.index then s + [x]
    else Insert(x, s[..|s| - 1]) + [s[|s| - 1]]
  }

  /** `usort($embeddings, fn($a, $b) => $a['index'] <=> $b['index'])`. */
  function Sort(s: seq<IndexedEmbedding>): (r: seq<IndexedEmbedding>)
    ensures |r| == |s|
  {
    if s == [] then [] else Insert(s[|s| - 1], Sort(s[..|s| - 1]))
  }

  /** `array_map(fn($embedding) => $embedding['embedding'], $embeddings)`. */
  function Project(s: seq<IndexedEmbedding>): (r: seq<Json>)
    ensures |r| == |s|
    ensures forall i :: 0 <= i < |s| ==> r[i] == s[i].embedding
  {
    if s == [] then [] else Project(s[..|s| - 1]) + [s[|s| - 1].embedding]
  }

  /** The full normalisation: sort, then project. */
  function Normalise(s: seq<IndexedEmbedding>): (r: seq<Json>)
    ensures |r| == |s|
  {
    Project(Sort(s))
  }

  /** The `index` tags of the items, in order. */
  function Indices(s: seq<IndexedEmbedding>): (r: seq<int>)
    ensures |r| == |s|
    ensures forall i :: 0 <= i < |s| ==> r[i] == s[i].index
  {
    if s == [] then [] else Indices(s[..|s| - 1]) + [s[|s| - 1].index]
  }

  lemma SplitLast<T>(s: seq<T>)
    requires s != []
    ensures s == s[..|s| - 1] + [s[|s| - 1]]
  {
  }

  // ---------------------------------------------------------------------------------------------
  // What the sort promises

  /** Inserting adds exactly one item. */
  lemma {:induction false} InsertMultiset(x: IndexedEmbedding, s: seq<IndexedEmbedding>)
    ensures multiset(Insert(x, s)) == multiset(s) + multiset{x}
  {
    if s != [] && s[|s| - 1].index > x.index {
      var init, last := s[..|s| - 1], s[|s| - 1];
      InsertMultiset(x, init);
      SplitLast(s);
      assert multiset(s) == multiset(init) + multiset{last};
    }
  }

  /** Inserting into an ordered sequence keeps it ordered. */
  lemma {:induction false} InsertSorted(x: IndexedEmbedding, s: seq<IndexedEmbedding>)
    requires SortedByIndex(s)
    ensures SortedByIndex(Insert(x, s))
  {
    if s != [] && s[|s| - 1].index > x.index {
      var init, last := s[..|s| - 1], s[|s| - 1];
      InsertSorted(x, init);
      InsertMultiset(x, init);
      var r := Insert(x, init);
      forall k | 0 <= k < |r|
        ensures r[k].index <= last.index
      {
        assert r[k] in multiset(r);
        if r[k] != x {
          assert r[k] in multiset(init);
          var m :| 0 <= m < |init| && init[m] == r[k];
          assert s[m] == r[k];
        }
      }
      assert Insert(x, s) == r + [last];
    }
  }

  /** The result is ordered by index and is a rearrangement of the input. */
  lemma {:induction false} SortIsSortedPermutation(s: seq<IndexedEmbedding>)
    ensures SortedByIndex(Sort(s))
    ensures multiset(Sort(s)) == multiset(s)
  {
    if s != [] {
      var init, last := s[..|s| - 1], s[|s| - 1];
      SortIsSortedPermutation(init);
      InsertSorted(last, Sort(init));
      InsertMultiset(last, Sort(init));
      SplitLast(s);
      assert multiset(s) == multiset(init) + multiset{last};
    }
  }

  /** Inserting behind an equal or smaller last index appends. */
  lemma InsertAtEnd(x: IndexedEmbedding, s: seq<IndexedEmbedding>)
    requires SortedByIndex(s + [x])
    ensures Insert(x, s) == s + [x]
  {
    if s != [] {
      var t := s + [x];
      assert t[|s| - 1].index <= t[|s|].index;
    }
  }

  /** An input already in index order comes back unchanged. */
  lemma {:induction false} SortOfSortedIsIdentity(s: seq<IndexedEmbedding>)
    requires SortedByIndex(s)
    ensures Sort(s) == s
  {
    if s != [] {
      var init, last := s[..|s| - 1], s[|s| - 1];
      SplitLast(s);
      assert SortedByIndex(init);
      SortOfSortedIsIdentity(init);
      InsertAtEnd(last, init);
    }
  }

  /** The items tagged `k`, in their order in `s`. */
  function WithIndex(s: seq<IndexedEmbedding>, k: int): (r: seq<IndexedEmbedding>)
    ensures forall i :: 0 <= i < |r| ==> r[i].index == k
  {
    if s == [] then []
    else WithIndex(s[..|s| - 1], k) + (if s[|s| - 1].index == k then [s[|s| - 1]] else [])
  }

  lemma {:induction false} WithIndexInsert(x: IndexedEmbedding, s: seq<IndexedEmbedding>, k: int)
    ensures WithIndex(Insert(x, s), k) == WithIndex(s, k) + (if x.index == k then [x] else [])
  {
    if s == [] || s[|s| - 1].index <= x.index {
      assert (s + [x])[..|s|] == s;
    } else {
      var init, last := s[..|s| - 1], s[|s| - 1];
      WithIndexInsert(x, init, k);
      var ins := Insert(x, init);
      assert (ins + [last])[..|ins|] == ins;
      assert s == init + [last];
      assert s[..|s| - 1] == init;
    }
  }

  /** Stability: for every index value, the items carrying it come out in their input order. */
  lemma {:induction false} SortIsStable(s: seq<IndexedEmbedding>, k: int)
    ensures WithIndex(Sort(s), k) == WithIndex(s, k)
  {
    if s != [] {
      var init, last := s[..|s| - 1], s[|s| - 1];
      SortIsStable(init, k);
      WithIndexInsert(last, Sort(init), k);
    }
  }

  lemma AppendOne(s: seq<IndexedEmbedding>, x: IndexedEmbedding)
    ensures Project(s + [x]) == Project(s) + [x.embedding]
    ensures Indices(s + [x]) == Indices(s) + [x.index]
  {
    assert (s + [x])[..|s|] == s;
  }

  /** Inserting adds the item's embedding to the projection. */
  lemma {:induction false} ProjectInsert(x: IndexedEmbedding, s: seq<IndexedEmbedding>)
    ensures multiset(Project(Insert(x, s))) == multiset(Project(s)) + multiset{x.embedding}
  {
    if s == [] || s[|s| - 1].index <= x.index {
      AppendOne(s, x);
    } else {
      var init, last := s[..|s| - 1], s[|s| - 1];
      ProjectInsert(x, init);
      AppendOne(Insert(x, init), last);
      SplitLast(s);
      AppendOne(init, last);
    }
  }

  /** Inserting adds the item's index to the indices. */
  lemma {:induction false} IndicesInsert(x: IndexedEmbedding, s: seq<IndexedEmbedding>)
    ensures multiset(Indices(Insert(x, s))) == multiset(Indices(s)) + multiset{x.index}
  {
    if s == [] || s[|s| - 1].index <= x.index {
      AppendOne(s, x);
    } else {
      var init, last := s[..|s| - 1], s[|s| - 1];
      IndicesInsert(x, init);
      AppendOne(Insert(x, init), last);
      SplitLast(s);
      AppendOne(init, last);
    }
  }

  /** The embeddings that come out are those that went in, as a multiset: nothing is added or
      dropped. */
  lemma {:induction false} NormaliseIsPermutation(s: seq<IndexedEmbedding>)
    ensures multiset(Normalise(s)) == multiset(Project(s))
  {
    if s != [] {
      var init, last := s[..|s| - 1], s[|s| - 1];
      NormaliseIsPermutation(init);
      ProjectInsert(last, Sort(init));
      SplitLast(s);
      AppendOne(init, last);
    }
  }

  /** Likewise for the index tags. */
  lemma {:induction false} SortKeepsIndices(s: seq<IndexedEmbedding>)
    ensures multiset(Indices(Sort(s))) == multiset(Indices(s))
  {
    if s != [] {
      var init, last := s[..|s| - 1], s[|s| - 1];
      SortKeepsIndices(init);
      IndicesInsert(last, Sort(init));
      SplitLast(s);
      AppendOne(init, last);
    }
  }

  // ---------------------------------------------------------------------------------------------
  // Indices 0..n-1, each once

  /** The integers lo, lo+1, ..., hi-1. */
  function Range(lo: int, hi: int): (r: seq<int>)
    ensures |r| == if lo <= hi then hi - lo else 0
    ensures forall i :: 0 <= i < |r| ==> r[i] == lo + i
    decreases hi - lo
  {
    if lo >= hi then [] else [lo] + Range(lo + 1, hi)
  }

  predicate Ascending(r: seq<int>) {
    forall i, j :: 0 <= i < j < |r| ==> r[i] <= r[j]
  }

  lemma RangeMembers(lo: int, hi: int, x: int)
    requires x in multiset(Range(lo, hi))
    ensures lo <= x < hi
  {
  }

  lemma RangeFirst(lo: int, hi: int)
    requires lo < hi
    ensures multiset(Range(lo, hi)) == multiset{lo} + multiset(Range(lo + 1, hi))
  {
    assert Range(lo, hi) == [lo] + Range(lo + 1, hi);
  }

  /** An ascending sequence holding exactly lo..hi-1 starts with lo. */
  lemma RangeHead(r: seq<int>, lo: int, hi: int)
    requires r != [] && Ascending(r)
    requires multiset(r) == multiset(Range(lo, hi))
    ensures lo < hi && r[0] == lo
  {
    assert r[0] in multiset(r);
    RangeMembers(lo, hi, r[0]);
    assert Range(lo, hi)[0] == lo;
    assert lo in multiset(r);
    var j :| 0 <= j < |r| && r[j] == lo;
  }

  lemma MultisetCancel<T>(x: T, a: multiset<T>, b: multiset<T>)
    requires multiset{x} + a == multiset{x} + b
    ensures a == b
  {
    assert a == (multiset{x} + a) - multiset{x};
    assert b == (multiset{x} + b) - multiset{x};
  }

  /** An ascending sequence holding exactly the integers lo..hi-1 is lo, ..., hi-1. */
  lemma {:induction false} SortedRangeIsRange(r: seq<int>, lo: int, hi: int)
    requires Ascending(r)
    requires multiset(r) == multiset(Range(lo, hi))
    ensures r == Range(lo, hi)
    decreases |r|
  {
    if r != [] {
      RangeHead(r, lo, hi);
      RangeFirst(lo, hi);
      assert r == [lo] + r[1..];
      assert multiset(r) == multiset{lo} + multiset(r[1..]);
      MultisetCancel(lo, multiset(r[1..]), multiset(Range(lo + 1, hi)));
      assert Ascending(r[1..]);
      SortedRangeIsRange(r[1..], lo + 1, hi);
    }
  }

  /** When the response tags its n items with 0..n-1, each once, the sorted items carry the tags
      0, ..., n-1 in order. */
  lemma SortByTag(s: seq<IndexedEmbedding>)
    requires multiset(Indices(s)) == multiset(Range(0, |s|))
    ensures Indices(Sort(s)) == Range(0, |s|)
  {
    SortIsSortedPermutation(s);
    SortKeepsIndices(s);
    var r := Indices(Sort(s));
    assert Ascending(r);
    SortedRangeIsRange(r, 0, |s|);
  }

  /** Each tag lies in 0..n-1. */
  lemma TagInRange(s: seq<IndexedEmbedding>, i: nat)
    requires multiset(Indices(s)) == multiset(Range(0, |s|))
    requires i < |s|
    ensures 0 <= s[i].index < |s|
  {
    assert Indices(s)[i] in multiset(Indices(s));
    RangeMembers(0, |s|, s[i].index);
  }

  /** The k-th sorted item is the one tagged k. */
  lemma SortedTag(s: seq<IndexedEmbedding>, k: nat)
    requires multiset(Indices(s)) == multiset(Range(0, |s|))
    requires k < |s|
    ensures Sort(s)[k].index == k
  {
    SortByTag(s);
    assert Indices(Sort(s))[k] == Range(0, |s|)[k];
  }

  /** ... so the k-th embedding returned is the one the response tagged k, whatever order the
      items arrived in. */
  lemma NormaliseByTag(s: seq<IndexedEmbedding>, i: nat)
    requires multiset(Indices(s)) == multiset(Range(0, |s|))
    requires i < |s|
    ensures 0 <= s[i].index < |s| && Normalise(s)[s[i].index] == s[i].embedding
  {
    TagInRange(s, i);
    var r := Sort(s);
    SortIsSortedPermutation(s);
    assert s[i] in multiset(r);
    var j :| 0 <= j < |r| && r[j] == s[i];
    SortedTag(s, j);
  }

  // ---------------------------------------------------------------------------------------------
  // The in-place sort

  /** Where `Insert` puts `x`: behind the last index no larger than its own, in front of the run
      of larger indices that ends `p`. */
  lemma {:induction false} InsertAt(x: IndexedEmbedding, p: seq<IndexedEmbedding>, j: nat)
    requires j <= |p|
    requires j == 0 || p[j - 1].index <= x.index
    requires forall k :: j <= k < |p| ==> p[k].index > x.index
    ensures Insert(x, p) == p[..j] + [x] + p[j..]
    decreases |p| - j
  {
    if j < |p| {
      var init, last := p[..|p| - 1], p[|p| - 1];
      assert last.index > x.index;
      assert Insert(x, p) == Insert(x, init) + [last];
      assert j == 0 || init[j - 1] == p[j - 1];
      InsertAt(x, init, j);
      assert init[..j] == p[..j];
      assert p[j..] == init[j..] + [last];
    } else {
      assert p[..j] == p && p[j..] == [];
    }
  }

  /** Moves `a[i]` left past the larger indices at the end of `a[..i]`, shifting them right by
      one, and returns the slot it lands in. */
  method InsertInPlace(a: array<IndexedEmbedding>, i: nat) returns (j: nat)
    requires i < a.Length
    modifies a
    ensures j <= i && a[j] == old(a[i])
    ensures j == 0 || old(a[j - 1]).index <= old(a[i]).index
    ensures forall k :: j <= k < i ==> old(a[k]).index > old(a[i]).index
    ensures forall k :: 0 <= k < j ==> a[k] == old(a[k])
    ensures forall k :: j < k <= i ==> a[k] == old(a[k - 1])
    ensures forall k :: i < k < a.Length ==> a[k] == old(a[k])
  {
    var x := a[i];
    j := i;
    while j > 0 && a[j - 1].index > x.index
      invariant 0 <= j <= i
      invariant forall k :: 0 <= k < j ==> a[k] == old(a[k])
      invariant forall k :: j < k <= i ==> a[k] == old(a[k - 1])
      invariant forall k :: i < k < a.Length ==> a[k] == old(a[k])
      invariant forall k :: j <= k < i ==> old(a[k]).index > x.index
    {
      a[j] := a[j - 1];
      j := j - 1;
    }
    a[j] := x;
  }

  /** The array contents after `InsertInPlace`, as sequences. */
  lemma Shifted(before: seq<IndexedEmbedding>, after: seq<IndexedEmbedding>, i: nat, j: nat)
    requires j <= i < |before| == |after|
    requires after[j] == before[i]
    requires forall k :: 0 <= k < j ==> after[k] == before[k]
    requires forall k :: j < k <= i ==> after[k] == before[k - 1]
    requires forall k :: i < k < |after| ==> after[k] == before[k]
    ensures after[..i + 1] == before[..j] + [before[i]] + before[j..i]
    ensures after[i + 1..] == before[i + 1..]
  {
  }

  /** One round of the outer loop, on the array contents before and after `InsertInPlace`. */
  lemma SortStep(input: seq<IndexedEmbedding>, before: seq<IndexedEmbedding>,
                 after: seq<IndexedEmbedding>, i: nat, j: nat)
    requires j <= i < |input| == |before| == |after|
    requires before[..i] == Sort(input[..i]) && before[i..] == input[i..]
    requires after[j] == before[i]
    requires j == 0 || before[j - 1].index <= before[i].index
    requires forall k :: j <= k < i ==> before[k].index > before[i].index
    requires forall k :: 0 <= k < j ==> after[k] == before[k]
    requires forall k :: j < k <= i ==> after[k] == before[k - 1]
    requires forall k :: i < k < |after| ==> after[k] == before[k]
    ensures after[..i + 1] == Sort(input[..i + 1])
    ensures after[i + 1..] == input[i + 1..]
  {
    Shifted(before, after, i, j);
    InsertAt(before[i], before[..i], j);
    assert before[..i][..j] == before[..j] && before[..i][j..] == before[j..i];
    assert before[i] == input[i];
    assert input[..i + 1][..i] == input[..i];
    assert before[i + 1..] == input[i + 1..];
  }

  /** `usort` on the array of items: afterwards the array holds `Sort` of what it held. */
  method SortInPlace(a: array<IndexedEmbedding>)
    modifies a
    ensures a[..] == Sort(old(a[..]))
  {
    ghost var input := a[..];
    for i := 0 to a.Length
      invariant a[..i] == Sort(input[..i])
      invariant a[i..] == input[i..]
    {
      ghost var before := a[..];
      var j := InsertInPlace(a, i);
      SortStep(input, before, a[..], i, j);
    }
    assert input[..a.Length] == input;
  }

  /** The `array_map` over the sorted array. */
  method ProjectArray(a: array<IndexedEmbedding>) returns (embeddings: seq<Json>)
    ensures embeddings == Project(a[..])
  {
    embeddings := [];
    for i := 0 to a.Length
      invariant embeddings == Project(a[..i])
    {
      AppendOne(a[..i], a[i]);
      assert a[..i + 1] == a[..i] + [a[i]];
      embeddings := embeddings + [a[i].embedding];
    }
    assert a[..a.Length] == a[..];
  }

  /** Copies the items into a fresh array, sorts it and projects: `generate`'s post-processing. */
  method NormaliseItems(items: seq<IndexedEmbedding>) returns (embeddings: seq<Json>)
    ensures embeddings == Normalise(items)
  {
    var a := new IndexedEmbedding[|items|](i requires 0 <= i < |items| => items[i]);
    assert a[..] == items;
    SortInPlace(a);
    embeddings := ProjectArray(a);
  }
}
