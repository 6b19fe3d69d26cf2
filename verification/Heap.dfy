/** The priority queue of the event services: a binary heap kept in a vector, with the
    smallest key on top.  Entries with equal keys may leave in any order. */
module Heaps {
  datatype Entry<T> = Entry(key: int, item: T)

  function Parent(i: nat): nat
    requires i > 0
  {
    (i - 1) / 2
  }

  predicate IsHeap<T>(s: seq<Entry<T>>) {
    forall i :: 0 < i < |s| ==> s[Parent(i)].key <= s[i].key
  }

  /** A heap but for the pair of i and its parent. */
  predicate HeapButUp<T>(s: seq<Entry<T>>, i: nat) {
    && (forall j :: 0 < j < |s| && j != i ==> s[Parent(j)].key <= s[j].key)
    && (forall j :: 0 < j < |s| && Parent(j) == i && 0 < i < |s| ==> s[Parent(i)].key <= s[j].key)
  }

  /** A heap but for the pairs of i and its children. */
  predicate HeapButDown<T>(s: seq<Entry<T>>, i: nat) {
    && (forall j :: 0 < j < |s| && Parent(j) != i ==> s[Parent(j)].key <= s[j].key)
    && (forall j :: 0 < j < |s| && Parent(j) == i && 0 < i < |s| ==> s[Parent(i)].key <= s[j].key)
  }

  function Swapped<T>(s: seq<Entry<T>>, i: nat, k: nat): seq<Entry<T>>
    requires i < |s| && k < |s|
  {
    s[i := s[k]][k := s[i]]
  }

  lemma SwapKeepsContents<T>(s: seq<Entry<T>>, i: nat, k: nat)
    requires i < |s| && k < |s|
    ensures multiset(Swapped(s, i, k)) == multiset(s)
  {}

  lemma SwapUp<T>(s: seq<Entry<T>>, i: nat)
    requires 0 < i < |s| && HeapButUp(s, i) && s[i].key < s[Parent(i)].key
    ensures HeapButUp(Swapped(s, i, Parent(i)), Parent(i))
  {
    var p := Parent(i);
    var t := Swapped(s, i, p);
    forall j | 0 < j < |t| && j != p ensures t[Parent(j)].key <= t[j].key {
      if j != i { assert s[Parent(j)].key <= s[j].key; }
    }
    forall j | 0 < j < |t| && Parent(j) == p && 0 < p ensures t[Parent(p)].key <= t[j].key {
      assert s[Parent(p)].key <= s[p].key;
      if j != i { assert s[Parent(j)].key <= s[j].key; }
    }
  }

  lemma SwapDown<T>(s: seq<Entry<T>>, i: nat, c: nat)
    requires i < |s| && 0 < c < |s| && Parent(c) == i && HeapButDown(s, i) && s[c].key < s[i].key
    requires forall j :: 0 < j < |s| && Parent(j) == i ==> s[c].key <= s[j].key
    ensures HeapButDown(Swapped(s, i, c), c)
  {}

  lemma AppendedButUp<T>(s: seq<Entry<T>>, e: Entry<T>)
    requires IsHeap(s)
    ensures HeapButUp(s + [e], |s|)
    ensures multiset(s + [e]) == multiset(s) + multiset{e}
  {}

  lemma AlreadyHeap<T>(s: seq<Entry<T>>, i: nat, c: nat)
    requires i < |s| && c < |s| && HeapButDown(s, i) && s[i].key <= s[c].key
    requires forall j :: 0 < j < |s| && Parent(j) == i ==> s[c].key <= s[j].key
    ensures IsHeap(s)
  {}

  /** The first entry of a heap has the smallest key. */
  lemma {:induction false} RootIsLeast<T>(s: seq<Entry<T>>, i: nat)
    requires IsHeap(s) && i < |s|
    ensures s[0].key <= s[i].key
  {
    if i > 0 { RootIsLeast(s, Parent(i)); }
  }

  /** An entry with a least key of the queue. */
  ghost predicate Least<T(!new)>(q: multiset<Entry<T>>, e: Entry<T>) {
    e in q && forall x :: x in q ==> e.key <= x.key
  }

  /** A queue that holds something has an entry to pop. */
  lemma {:induction false} HasLeast<T(!new)>(q: multiset<Entry<T>>) returns (e: Entry<T>)
    requires q != multiset{}
    ensures Least(q, e)
    decreases |q|
  {
    var x :| x in q;
    var rest := q - multiset{x};
    assert q == rest + multiset{x};
    if rest == multiset{} {
      e := x;
    } else {
      var y := HasLeast(rest);
      e := if x.key <= y.key then x else y;
    }
  }

  predicate Sorted<T>(s: seq<Entry<T>>) {
    forall i, k :: 0 <= i < k < |s| ==> s[i].key <= s[k].key
  }

  /** Everything in s comes no later than everything in q. */
  ghost predicate NotAbove<T(!new)>(s: seq<Entry<T>>, q: multiset<Entry<T>>) {
    forall x, i :: x in q && 0 <= i < |s| ==> s[i].key <= x.key
  }

  lemma AppendLeast<T(!new)>(s: seq<Entry<T>>, q: multiset<Entry<T>>, e: Entry<T>)
    requires Sorted(s) && NotAbove(s, q) && Least(q, e)
    ensures Sorted(s + [e]) && NotAbove(s + [e], q - multiset{e})
    ensures multiset(s + [e]) + (q - multiset{e}) == multiset(s) + q
    ensures |q - multiset{e}| < |q|
  {}

  lemma RemovesFirst<T>(was: seq<Entry<T>>, now: seq<Entry<T>>)
    requires |was| == |now| + 1 && IsHeap(was)
    requires forall k :: 0 < k < |now| ==> now[k] == was[k]
    requires |now| > 0 ==> now[0] == was[|now|]
    ensures HeapButDown(now, 0)
    ensures multiset(now) == multiset(was) - multiset{was[0]}
  {
    if now == [] {
      assert was == [was[0]];
    } else {
      assert was == [was[0]] + was[1..|now|] + [was[|now|]];
      assert now == [was[|now|]] + was[1..|now|];
    }
  }

  class Heap<T(!new)> {
    var data: array<Entry<T>>
    var size: nat
    ghost var Repr: set<object>

    ghost predicate Valid()
      reads this, Repr
      ensures Valid() ==> this in Repr
    {
      this in Repr && data in Repr && size <= data.Length && IsHeap(data[..size])
    }

    /** What the queue holds. */
    ghost function Contents(): multiset<Entry<T>>
      reads this, Repr
      requires Valid()
    {
      multiset(data[..size])
    }

    constructor ()
      ensures Valid() && fresh(Repr) && Contents() == multiset{}
    {
      data := new Entry<T>[0];
      size := 0;
      new;
      Repr := {this, data};
    }

    method Empty() returns (b: bool)
      requires Valid()
      ensures b <==> Contents() == multiset{}
    {
      b := size == 0;
      assert size > 0 ==> data[..size][0] in Contents();
    }

    lemma TopIsLeast()
      requires Valid() && Contents() != multiset{}
      ensures size > 0 && Least(Contents(), data[0])
    {
      assert data[..size][0] == data[0];
      forall x | x in Contents() ensures data[0].key <= x.key {
        var i :| 0 <= i < size && data[..size][i] == x;
        RootIsLeast(data[..size], i);
      }
    }

    method Top() returns (e: Entry<T>)
      requires Valid() && Contents() != multiset{}
      ensures Least(Contents(), e)
    {
      e := data[0];
      TopIsLeast();
    }

    method Swap(i: nat, k: nat, n: nat)
      requires i < n <= data.Length && k < n
      modifies data
      ensures data[..n] == Swapped(old(data[..n]), i, k)
      ensures multiset(data[..n]) == multiset(old(data[..n]))
    {
      SwapKeepsContents(data[..n], i, k);
      data[i], data[k] := data[k], data[i];
    }

    method SiftUp(start: nat)
      requires start < size <= data.Length && HeapButUp(data[..size], start)
      modifies data
      ensures IsHeap(data[..size]) && multiset(data[..size]) == multiset(old(data[..size]))
    {
      var i: nat := start;
      while i > 0 && data[i].key < data[Parent(i)].key
        invariant i < size && HeapButUp(data[..size], i)
        invariant multiset(data[..size]) == multiset(old(data[..size]))
      {
        SwapUp(data[..size], i);
        Swap(i, Parent(i), size);
        i := Parent(i);
      }
      assert i > 0 ==> data[..size][Parent(i)].key <= data[..size][i].key;
    }

    /** The child of i with the smaller key. */
    method SmallerChild(i: nat) returns (c: nat)
      requires 2 * i + 1 < size <= data.Length
      ensures i < c < size && Parent(c) == i
      ensures forall j :: 0 < j < size && Parent(j) == i ==> data[c].key <= data[j].key
    {
      c := 2 * i + 1;
      if c + 1 < size && data[c + 1].key < data[c].key { c := c + 1; }
    }

    method SiftDown()
      requires size <= data.Length && HeapButDown(data[..size], 0)
      modifies data
      ensures IsHeap(data[..size]) && multiset(data[..size]) == multiset(old(data[..size]))
    {
      var i: nat := 0;
      while 2 * i + 1 < size
        invariant HeapButDown(data[..size], i)
        invariant multiset(data[..size]) == multiset(old(data[..size]))
        decreases size - i
      {
        var c := SmallerChild(i);
        if data[i].key <= data[c].key {
          AlreadyHeap(data[..size], i, c);
          return;
        }
        SwapDown(data[..size], i, c);
        Swap(i, c, size);
        i := c;
      }
    }

    method Grow(filler: Entry<T>)
      requires Valid()
      modifies this
      ensures Valid() && fresh(Repr - old(Repr)) && data in Repr - old(Repr) && size < data.Length
      ensures size == old(size) && data[..size] == old(data[..size])
    {
      var bigger := new Entry<T>[2 * size + 1](_ => filler);
      for k := 0 to size
        modifies bigger
        invariant bigger[..k] == data[..k]
      {
        bigger[k] := data[k];
      }
      assert bigger[..size] == data[..size];
      data := bigger;
      Repr := Repr + {bigger};
    }

    /** Put e into the free place at the end and sift it up. */
    method Place(e: Entry<T>)
      requires Valid() && size < data.Length
      modifies this`size, data
      ensures Valid() && Contents() == old(Contents()) + multiset{e}
    {
      ghost var was := data[..size];
      data[size] := e;
      size := size + 1;
      assert data[..size] == was + [e];
      AppendedButUp(was, e);
      SiftUp(size - 1);
    }

    method Push(e: Entry<T>)
      requires Valid()
      modifies Repr
      ensures Valid() && fresh(Repr - old(Repr))
      ensures Contents() == old(Contents()) + multiset{e}
    {
      if size == data.Length { Grow(e); }
      Place(e);
    }

    method Pop() returns (e: Entry<T>)
      requires Valid() && Contents() != multiset{}
      modifies Repr
      ensures Valid() && Repr == old(Repr)
      ensures Least(old(Contents()), e)
      ensures Contents() == old(Contents()) - multiset{e}
    {
      TopIsLeast();
      e := data[0];
      ghost var was := data[..size];
      size := size - 1;
      data[0] := data[size];
      RemovesFirst(was, data[..size]);
      SiftDown();
    }

    /** Taking everything out gives the contents in key order. */
    method Drain() returns (s: seq<Entry<T>>)
      requires Valid()
      modifies Repr
      ensures Valid() && Contents() == multiset{}
      ensures Sorted(s) && multiset(s) == old(Contents())
    {
      s := [];
      var done := Empty();
      while !done
        invariant Valid() && Repr == old(Repr)
        invariant multiset(s) + Contents() == old(Contents())
        invariant Sorted(s) && NotAbove(s, Contents())
        invariant done <==> Contents() == multiset{}
        decreases |Contents()|
      {
        ghost var before := Contents();
        var e := Pop();
        AppendLeast(s, before, e);
        s := s + [e];
        done := Empty();
      }
    }
  }
}
