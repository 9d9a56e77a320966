/** Numbers and lists: bounds, joining lists of lists, and stable sorting. */
module Sequences {

  function Min(a: int, b: int): int {
    if a <= b then a else b
  }

  function Max(a: int, b: int): int {
    if a >= b then a else b
  }

  // ----- Joining -----

  function Flatten<T>(parts: seq<seq<T>>): seq<T> {
    if parts == [] then [] else parts[0] + Flatten(parts[1..])
  }

  lemma Regroup<T>(a: seq<T>, b: seq<T>, c: seq<T>)
    ensures (a + b) + c == a + (b + c)
  {
  }

  lemma FlattenOne<T>(part: seq<T>)
    ensures Flatten([part]) == part
  {
    assert [part][1..] == [] && part + [] == part;
  }

  lemma {:induction false} FlattenAppend<T>(a: seq<seq<T>>, b: seq<seq<T>>)
    ensures Flatten(a + b) == Flatten(a) + Flatten(b)
  {
    if a == [] {
      assert a + b == b;
    } else {
      assert (a + b)[1..] == a[1..] + b;
      FlattenAppend(a[1..], b);
    }
  }

  lemma FlattenLast<T>(parts: seq<seq<T>>)
    requires parts != []
    ensures Flatten(parts) == Flatten(parts[..|parts| - 1]) + parts[|parts| - 1]
  {
    var front, last := parts[..|parts| - 1], parts[|parts| - 1];
    FlattenAppend(front, [last]);
    FlattenOne(last);
    assert parts == front + [last];
  }

  // ----- Sorting -----

  ghost predicate TotalPreorder<T(!new)>(before: (T, T) -> bool) {
    && (forall x, y :: before(x, y) || before(y, x))
    && (forall x, y, z :: before(x, y) && before(y, z) ==> before(x, z))
  }

  predicate Sorted<T>(before: (T, T) -> bool, s: seq<T>) {
    forall m, n | 0 <= m < n < |s| :: before(s[m], s[n])
  }

  // Stable insertion of a later element: after everything that may stand before it.
  function Insert<T>(before: (T, T) -> bool, sorted: seq<T>, x: T): seq<T> {
    if sorted == [] || before(sorted[|sorted| - 1], x) then sorted + [x]
    else Insert(before, sorted[..|sorted| - 1], x) + [sorted[|sorted| - 1]]
  }

  // Array.prototype.sort, which is stable.
  function StableSort<T>(before: (T, T) -> bool, s: seq<T>): seq<T> {
    if s == [] then [] else Insert(before, StableSort(before, s[..|s| - 1]), s[|s| - 1])
  }

  lemma {:induction false} InsertKeeps<T>(before: (T, T) -> bool, sorted: seq<T>, x: T)
    ensures |Insert(before, sorted, x)| == |sorted| + 1
    ensures forall y :: y in Insert(before, sorted, x) <==> y in sorted || y == x
  {
    if sorted != [] && !before(sorted[|sorted| - 1], x) {
      InsertKeeps(before, sorted[..|sorted| - 1], x);
      assert sorted == sorted[..|sorted| - 1] + [sorted[|sorted| - 1]];
    }
  }

  lemma {:induction false} InsertSorted<T(!new)>(before: (T, T) -> bool, sorted: seq<T>, x: T)
    requires TotalPreorder(before) && Sorted(before, sorted)
    ensures Sorted(before, Insert(before, sorted, x))
  {
    if sorted != [] {
      var front, last := sorted[..|sorted| - 1], sorted[|sorted| - 1];
      if before(last, x) {
        assert forall m | 0 <= m < |sorted| :: before(sorted[m], x);
      } else {
        InsertSorted(before, front, x);
        InsertKeeps(before, front, x);
        forall m | 0 <= m < |sorted|
          ensures before(Insert(before, front, x)[m], last)
        {
          assert Insert(before, front, x)[m] in front || Insert(before, front, x)[m] == x;
        }
      }
    }
  }

  lemma {:induction false} StableSortKeeps<T>(before: (T, T) -> bool, s: seq<T>)
    ensures |StableSort(before, s)| == |s| && forall y :: y in StableSort(before, s) <==> y in s
  {
    if s != [] {
      StableSortKeeps(before, s[..|s| - 1]);
      InsertKeeps(before, StableSort(before, s[..|s| - 1]), s[|s| - 1]);
      assert s == s[..|s| - 1] + [s[|s| - 1]];
    }
  }

  lemma {:induction false} StableSortSorts<T(!new)>(before: (T, T) -> bool, s: seq<T>)
    requires TotalPreorder(before)
    ensures Sorted(before, StableSort(before, s))
  {
    if s != [] {
      StableSortSorts(before, s[..|s| - 1]);
      InsertSorted(before, StableSort(before, s[..|s| - 1]), s[|s| - 1]);
    }
  }

  // ----- Firsts -----

  // Something that holds in the end and not in the beginning begins to hold at some step.
  lemma {:induction false} Onset(holds: nat -> bool, n: nat) returns (k: nat)
    requires !holds(0) && holds(n)
    ensures k < n && !holds(k) && holds(k + 1)
  {
    if n > 0 && holds(n - 1) {
      k := Onset(holds, n - 1);
    } else {
      k := n - 1;
    }
  }

  // What is remembered once it happens has happened exactly if it is remembered.
  lemma {:induction false} OnceEver(remembered: nat -> bool, happens: nat -> bool, n: nat)
    requires !remembered(0)
    requires forall k: nat | k < n :: remembered(k + 1) <==> remembered(k) || happens(k)
    ensures remembered(n) <==> exists k: nat | k < n :: happens(k)
  {
    if n > 0 {
      OnceEver(remembered, happens, n - 1);
      assert remembered(n) <==> remembered(n - 1) || happens(n - 1);
    }
  }
}
