/** Sorted rearrangements and what positions in them say about counts. */
module Sorting {
  ghost predicate Sorted(s: seq<int>) { forall i, j :: 0 <= i < j < |s| ==> s[i] <= s[j] }

  ghost predicate SortedOf(t: seq<int>, s: seq<int>) { Sorted(t) && multiset(t) == multiset(s) }

  function Insert(x: int, s: seq<int>): seq<int> {
    if s == [] || x <= s[0] then [x] + s else [s[0]] + Insert(x, s[1..])
  }

  function Sort(s: seq<int>): seq<int> {
    if s == [] then [] else Insert(s[0], Sort(s[1..]))
  }

  lemma {:induction false} InsertElements(x: int, s: seq<int>)
    ensures multiset(Insert(x, s)) == multiset{x} + multiset(s)
  {
    if s != [] && x > s[0] {
      InsertElements(x, s[1..]);
      assert s == [s[0]] + s[1..];
    }
  }

  lemma {:induction false} InsertSorts(x: int, s: seq<int>)
    requires Sorted(s)
    ensures Sorted(Insert(x, s))
  {
    if s != [] && x > s[0] {
      InsertSorts(x, s[1..]);
      InsertElements(x, s[1..]);
      var t := Insert(x, s[1..]);
      forall i | 0 <= i < |t| ensures s[0] <= t[i] {
        assert t[i] in multiset(t);
        assert t[i] == x || t[i] in s[1..];
      }
    }
  }

  lemma {:induction false} SortSorts(s: seq<int>)
    ensures SortedOf(Sort(s), s)
  {
    if s != [] {
      SortSorts(s[1..]);
      InsertSorts(s[0], Sort(s[1..]));
      InsertElements(s[0], Sort(s[1..]));
      assert s == [s[0]] + s[1..];
    }
  }

  /** Two sorted rearrangements of the same elements are equal. */
  lemma {:induction false} SortedIsUnique(a: seq<int>, b: seq<int>)
    requires Sorted(a) && Sorted(b) && multiset(a) == multiset(b)
    ensures a == b
  {
    SameLength(a, b);
    if a != [] {
      SameHead(a, b);
      SameTail(a, b);
      SortedIsUnique(a[1..], b[1..]);
      assert a == [a[0]] + a[1..] && b == [b[0]] + b[1..];
    }
  }

  lemma TailElements(s: seq<int>)
    requires s != []
    ensures multiset(s[1..]) == multiset(s) - multiset{s[0]}
  {
    assert s == [s[0]] + s[1..];
  }

  lemma SameTail(a: seq<int>, b: seq<int>)
    requires a != [] && b != [] && a[0] == b[0] && multiset(a) == multiset(b)
    ensures multiset(a[1..]) == multiset(b[1..])
  {
    TailElements(a);
    TailElements(b);
  }

  lemma SameHead(a: seq<int>, b: seq<int>)
    requires Sorted(a) && Sorted(b) && multiset(a) == multiset(b) && a != [] && b != []
    ensures a[0] == b[0]
  {
    assert a[0] in multiset(b) && b[0] in multiset(a);
    assert a[0] in b && b[0] in a;
  }

  lemma SameLength(a: seq<int>, b: seq<int>)
    requires multiset(a) == multiset(b)
    ensures |a| == |b|
  {
    assert |multiset(a)| == |a| && |multiset(b)| == |b|;
  }

  /** How many elements lie in a range. */
  function CountIn(s: seq<int>, lo: int, hi: int): nat {
    if s == [] then 0 else CountIn(s[..|s| - 1], lo, hi) + (if lo <= s[|s| - 1] <= hi then 1 else 0)
  }

  lemma {:induction false} CountAppend(s: seq<int>, t: seq<int>, lo: int, hi: int)
    ensures CountIn(s + t, lo, hi) == CountIn(s, lo, hi) + CountIn(t, lo, hi)
  {
    if t == [] {
      assert s + t == s;
    } else {
      CountAppend(s, t[..|t| - 1], lo, hi);
      assert (s + t)[..|s + t| - 1] == s + t[..|t| - 1];
    }
  }

  lemma {:induction false} CountAtMost(s: seq<int>, lo: int, hi: int)
    ensures CountIn(s, lo, hi) <= |s|
  {
    if s != [] { CountAtMost(s[..|s| - 1], lo, hi); }
  }

  lemma {:induction false} CountNone(s: seq<int>, lo: int, hi: int)
    requires forall i :: 0 <= i < |s| ==> s[i] < lo || s[i] > hi
    ensures CountIn(s, lo, hi) == 0
  {
    if s != [] { CountNone(s[..|s| - 1], lo, hi); }
  }

  /** Counting does not depend on the order. */
  lemma {:induction false} CountPermutes(s: seq<int>, t: seq<int>, lo: int, hi: int)
    requires multiset(s) == multiset(t)
    ensures CountIn(s, lo, hi) == CountIn(t, lo, hi)
  {
    SameLength(s, t);
    if s != [] {
      var n := |s| - 1;
      assert s == s[..n] + [s[n]];
      assert s[n] in multiset(t);
      var k :| 0 <= k < |t| && t[k] == s[n];
      assert t == t[..k] + [t[k]] + t[k + 1..];
      assert multiset(t) == multiset(t[..k]) + multiset{t[k]} + multiset(t[k + 1..]);
      assert multiset(s) == multiset(s[..n]) + multiset{s[n]};
      assert multiset(t[..k] + t[k + 1..]) == multiset(t) - multiset{t[k]} == multiset(s[..n]);
      CountPermutes(s[..n], t[..k] + t[k + 1..], lo, hi);
      CountAppend(t[..k] + [t[k]], t[k + 1..], lo, hi);
      CountAppend(t[..k], [t[k]], lo, hi);
      CountAppend(t[..k], t[k + 1..], lo, hi);
      CountAppend(s[..n], [s[n]], lo, hi);
    }
  }

  /** If more than i elements are outside on neither side, position i is inside: with at least
      |s| - i in range the i-th is not below it, with more than i in range not above it. */
  lemma PositionInRange(s: seq<int>, i: nat, lo: int, hi: int)
    requires Sorted(s) && i < |s|
    ensures CountIn(s, lo, hi) > |s| - 1 - i ==> s[i] >= lo
    ensures CountIn(s, lo, hi) > i ==> s[i] <= hi
  {
    if s[i] < lo && CountIn(s, lo, hi) > |s| - 1 - i {
      CountNone(s[..i + 1], lo, hi);
      assert s == s[..i + 1] + s[i + 1..];
      CountAppend(s[..i + 1], s[i + 1..], lo, hi);
      CountAtMost(s[i + 1..], lo, hi);
      assert false;
    }
    if s[i] > hi && CountIn(s, lo, hi) > i {
      CountNone(s[i..], lo, hi);
      assert s == s[..i] + s[i..];
      CountAppend(s[..i], s[i..], lo, hi);
      CountAtMost(s[..i], lo, hi);
      assert false;
    }
  }

  // ----- Selection sort -----

  lemma SwapKeepsElements(s: seq<int>, i: nat, j: nat)
    requires i < |s| && j < |s|
    ensures multiset(s[i := s[j]][j := s[i]]) == multiset(s)
  {}

  /** The first i elements are sorted and at most the others. */
  ghost predicate Placed(s: seq<int>, i: nat)
    requires i <= |s|
  {
    (forall p, q :: 0 <= p < q < i ==> s[p] <= s[q]) && (forall p, q :: 0 <= p < i <= q < |s| ==> s[p] <= s[q])
  }

  lemma PlaceSmallest(s: seq<int>, i: nat, smallest: nat)
    requires i <= smallest < |s| && Placed(s, i) && forall q :: i <= q < |s| ==> s[smallest] <= s[q]
    ensures var t := s[i := s[smallest]][smallest := s[i]]; multiset(t) == multiset(s) && Placed(t, i + 1)
  {
    SwapKeepsElements(s, i, smallest);
  }

  method SelectionSort(a: array<int>)
    modifies a
    ensures a[..] == Sort(old(a[..]))
  {
    hide Sort, Placed;
    var i := 0;
    PlacedNone(a[..]);
    while i < a.Length
      invariant 0 <= i <= a.Length
      invariant multiset(a[..]) == multiset(old(a[..])) && Placed(a[..], i)
    {
      var smallest := SmallestFrom(a, i);
      ghost var before := a[..];
      PlaceSmallest(before, i, smallest);
      if smallest != i {
        a[i], a[smallest] := a[smallest], a[i];
      }
      assert a[..] == before[i := before[smallest]][smallest := before[i]];
      i := i + 1;
    }
    PlacedAll(a[..]);
    SortSorts(old(a[..]));
    SortedIsUnique(a[..], Sort(old(a[..])));
  }

  lemma PlacedNone(s: seq<int>)
    ensures Placed(s, 0)
  {}

  lemma PlacedAll(s: seq<int>)
    requires Placed(s, |s|)
    ensures Sorted(s)
  {}

  method SmallestFrom(a: array<int>, i: nat) returns (m: nat)
    requires i < a.Length
    ensures i <= m < a.Length && forall q :: i <= q < a.Length ==> a[m] <= a[q]
  {
    m := i;
    var j := i + 1;
    while j < a.Length
      invariant i <= m < j <= a.Length
      invariant forall q :: i <= q < j ==> a[m] <= a[q]
    {
      if a[m] > a[j] { m := j; }
      j := j + 1;
    }
  }
}
