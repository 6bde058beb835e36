/**
 * The byte order of strings, sorting by any comparison, and the search and the in-place removal
 * of duplicates that a sorted list allows.
 */
module TextOrder {
  predicate Less(a: string, b: string) {
    if b == [] then false
    else if a == [] then true
    else if a[0] != b[0] then a[0] < b[0]
    else Less(a[1..], b[1..])
  }

  lemma {:induction false} LessIsTotal(a: string, b: string)
    ensures Less(a, b) || Less(b, a) || a == b
    decreases |a|
  {
    if a != [] && b != [] && a[0] == b[0] {
      LessIsTotal(a[1..], b[1..]);
      assert a == [a[0]] + a[1..] && b == [b[0]] + b[1..];
    }
  }

  lemma {:induction false} LessIsTransitive(a: string, b: string, c: string)
    requires Less(a, b) && Less(b, c)
    ensures Less(a, c)
    decreases |a|
  {
    if a != [] && a[0] == b[0] == c[0] {
      LessIsTransitive(a[1..], b[1..], c[1..]);
    }
  }

  lemma {:induction false} LessIsIrreflexive(a: string)
    ensures !Less(a, a)
    decreases |a|
  {
    if a != [] {
      LessIsIrreflexive(a[1..]);
    }
  }

  lemma LessIsAsymmetric(a: string, b: string)
    requires Less(a, b)
    ensures !Less(b, a)
  {
    if Less(b, a) {
      LessIsTransitive(a, b, a);
      LessIsIrreflexive(a);
    }
  }

  /** `a` does not come after `b`: with `Less` between the ends of a chain, it stays so. */
  lemma AtMostIsTransitive(a: string, b: string, c: string)
    requires !Less(b, a) && !Less(c, b)
    ensures !Less(c, a)
  {
    LessIsTotal(a, b);
    LessIsTotal(b, c);
    if Less(a, b) && Less(b, c) {
      LessIsTransitive(a, b, c);
      LessIsAsymmetric(a, c);
    }
  }

  // ----- Sorting by a comparison --------------------------------------------------------------

  function Inserted<T>(before: (T, T) -> bool, x: T, s: seq<T>): (r: seq<T>)
    ensures multiset(r) == multiset{x} + multiset(s)
  {
    if s == [] || !before(s[0], x) then
      assert [x] + s == [x] + s;
      [x] + s
    else
      assert s == [s[0]] + s[1..];
      [s[0]] + Inserted(before, x, s[1..])
  }

  /** Insertion sort, which keeps equal elements in order: what a stable library sort returns. */
  function SortedBy<T>(before: (T, T) -> bool, s: seq<T>): (r: seq<T>)
    ensures multiset(r) == multiset(s) && |r| == |s|
  {
    if s == [] then []
    else
      var r := Inserted(before, s[0], SortedBy(before, s[1..]));
      assert s == [s[0]] + s[1..];
      assert |multiset(r)| == |multiset(s)|;
      r
  }

  ghost predicate Ordered<T>(before: (T, T) -> bool, s: seq<T>) {
    forall i, j :: 0 <= i < j < |s| ==> !before(s[j], s[i])
  }

  /** What sorting needs of a comparison: no two elements before each other, and "not after" chains. */
  ghost predicate Comparison<T(!new)>(before: (T, T) -> bool) {
    && (forall a, b :: before(a, b) ==> !before(b, a))
    && (forall a, b, c :: !before(b, a) && !before(c, b) ==> !before(c, a))
  }

  lemma SameElements<T>(a: seq<T>, b: seq<T>)
    requires multiset(a) == multiset(b)
    ensures forall x :: x in a <==> x in b
  {
    forall x ensures x in a <==> x in b {
      assert x in a <==> x in multiset(a);
      assert x in b <==> x in multiset(b);
    }
  }

  lemma WithoutOne<T>(s: seq<T>, at: nat)
    requires at < |s|
    ensures multiset(s[..at] + s[at + 1..]) == multiset(s) - multiset{s[at]}
  {
    assert s == s[..at] + [s[at]] + s[at + 1..];
  }

  ghost predicate DistinctBy<T, K(!new)>(key: T -> K, s: seq<T>) {
    forall i, j :: 0 <= i < j < |s| ==> key(s[i]) != key(s[j])
  }

  lemma DistinctCountsOnce<T, K(!new)>(key: T -> K, s: seq<T>, at: nat)
    requires DistinctBy(key, s) && at < |s|
    ensures multiset(s)[s[at]] == 1
  {
    var before, after := s[..at], s[at + 1..];
    assert s == before + [s[at]] + after;
    assert s[at] !in before && s[at] !in after;
  }

  lemma RepeatCountsTwice<T>(s: seq<T>, i: nat, j: nat)
    requires i < j < |s| && s[i] == s[j]
    ensures multiset(s)[s[i]] >= 2
  {
    var before, after := s[..j], s[j + 1..];
    assert s == before + [s[j]] + after;
    assert before[i] in before;
  }

  lemma PermutedStaysDistinct<T, K(!new)>(key: T -> K, a: seq<T>, b: seq<T>)
    requires DistinctBy(key, a) && multiset(a) == multiset(b)
    ensures DistinctBy(key, b)
  {
    SameElements(a, b);
    forall i, j | 0 <= i < j < |b| ensures key(b[i]) != key(b[j]) {
      assert b[i] in b && b[j] in b;
      var p :| 0 <= p < |a| && a[p] == b[i];
      var q :| 0 <= q < |a| && a[q] == b[j];
      if p == q {
        RepeatCountsTwice(b, i, j);
        DistinctCountsOnce(key, a, p);
      }
    }
  }

  lemma {:induction false} InsertedIsOrdered<T(!new)>(before: (T, T) -> bool, x: T, s: seq<T>)
    requires Comparison(before) && Ordered(before, s)
    ensures Ordered(before, Inserted(before, x, s))
    decreases |s|
  {
    if s != [] && before(s[0], x) {
      var r := Inserted(before, x, s[1..]);
      InsertedIsOrdered(before, x, s[1..]);
      assert multiset([x] + s[1..]) == multiset{x} + multiset(s[1..]);
      SameElements(r, [x] + s[1..]);
      forall j | 0 <= j < |r| ensures !before(r[j], s[0]) {
        assert r[j] in r;
        assert r[j] == x || exists k :: 0 <= k < |s[1..]| && s[1..][k] == r[j];
      }
    } else if s != [] {
      forall j | 0 <= j < |s| ensures !before(s[j], x) {
      }
    }
  }

  lemma {:induction false} SortedByIsOrdered<T(!new)>(before: (T, T) -> bool, s: seq<T>)
    requires Comparison(before)
    ensures Ordered(before, SortedBy(before, s))
    decreases |s|
  {
    if s != [] {
      SortedByIsOrdered(before, s[1..]);
      InsertedIsOrdered(before, s[0], SortedBy(before, s[1..]));
    }
  }

  // ----- Sorted lists of strings --------------------------------------------------------------

  ghost predicate Sorted(s: seq<string>) {
    Ordered(Less, s)
  }

  ghost predicate Strict(s: seq<string>) {
    forall i, j :: 0 <= i < j < |s| ==> Less(s[i], s[j])
  }

  lemma LessIsComparison()
    ensures Comparison(Less)
  {
    forall a, b | Less(a, b) ensures !Less(b, a) {
      LessIsAsymmetric(a, b);
    }
    forall a, b, c | !Less(b, a) && !Less(c, b) ensures !Less(c, a) {
      AtMostIsTransitive(a, b, c);
    }
  }

  lemma StrictIsSorted(s: seq<string>)
    requires Strict(s)
    ensures Sorted(s) && forall i, j :: 0 <= i < j < |s| ==> s[i] != s[j]
  {
    forall i, j | 0 <= i < j < |s| ensures !Less(s[j], s[i]) && s[i] != s[j] {
      LessIsAsymmetric(s[i], s[j]);
      LessIsIrreflexive(s[i]);
    }
  }

  /** One strictly sorted list for each set of strings. */
  lemma {:induction false} StrictIsUnique(a: seq<string>, b: seq<string>)
    requires Strict(a) && Strict(b) && forall x :: x in a <==> x in b
    ensures a == b
    decreases |a|
  {
    if a == [] {
      assert forall i :: 0 <= i < |b| ==> b[i] in b;
    } else {
      assert a[0] in a && a[0] in b;
      assert b[0] in b && b[0] in a;
      StrictHeadsAgree(a, b);
      forall x ensures x in a[1..] <==> x in b[1..] {
        StrictTail(a, x);
        StrictTail(b, x);
      }
      StrictIsUnique(a[1..], b[1..]);
      assert a == [a[0]] + a[1..] && b == [b[0]] + b[1..];
    }
  }

  lemma StrictHeadsAgree(a: seq<string>, b: seq<string>)
    requires Strict(a) && Strict(b) && a != [] && b != [] && a[0] in b && b[0] in a
    ensures a[0] == b[0]
  {
    var i :| 0 <= i < |b| && b[i] == a[0];
    var j :| 0 <= j < |a| && a[j] == b[0];
    if i > 0 && j > 0 {
      LessIsAsymmetric(b[0], a[0]);
    }
  }

  lemma StrictTail(s: seq<string>, x: string)
    requires Strict(s) && s != []
    ensures x in s[1..] <==> x in s && x != s[0]
  {
    StrictIsSorted(s);
    assert s == [s[0]] + s[1..];
  }

  function Deduplicated(s: seq<string>): seq<string> {
    if s == [] then []
    else
      var d := Deduplicated(s[..|s| - 1]);
      if d != [] && d[|d| - 1] == s[|s| - 1] then d else d + [s[|s| - 1]]
  }

  lemma {:induction false} DeduplicatedIsStrict(s: seq<string>)
    requires Sorted(s)
    ensures var d := Deduplicated(s);
            Strict(d) && (forall x :: x in d <==> x in s) && (s != [] ==> d != [] && d[|d| - 1] == s[|s| - 1])
    decreases |s|
  {
    if s != [] {
      var front, last := s[..|s| - 1], s[|s| - 1];
      DeduplicatedIsStrict(front);
      assert s == front + [last];
      var d := Deduplicated(front);
      if front != [] && front[|front| - 1] != last {
        LessIsTotal(front[|front| - 1], last);
        forall i | 0 <= i < |d| ensures Less(d[i], last) {
          if i < |d| - 1 {
            LessIsTransitive(d[i], d[|d| - 1], last);
          }
        }
      }
    }
  }

  /** Overwrites the front of the list with its distinct elements, as the shared backing array does. */
  method UniqueInPlace(values: array<string>) returns (n: nat)
    modifies values
    ensures n <= values.Length && values[..n] == Deduplicated(old(values[..]))
  {
    n := 0;
    for i := 0 to values.Length
      invariant 0 <= n <= i
      invariant values[..n] == Deduplicated(old(values[..i]))
      invariant forall k :: i <= k < values.Length ==> values[k] == old(values[k])
    {
      assert old(values[..i + 1])[..i] == old(values[..i]);
      if n == 0 || values[n - 1] != values[i] {
        values[n] := values[i];
        n := n + 1;
      }
    }
    assert old(values[..values.Length]) == old(values[..]);
  }

  /** Binary search for the first element that is not before `wanted`. */
  method Search(values: seq<string>, wanted: string) returns (index: nat)
    requires Sorted(values)
    ensures index <= |values|
    ensures forall k :: 0 <= k < index ==> Less(values[k], wanted)
    ensures forall k :: index <= k < |values| ==> !Less(values[k], wanted)
  {
    var low, high := 0, |values|;
    while low < high
      invariant 0 <= low <= high <= |values|
      invariant forall k :: 0 <= k < low ==> Less(values[k], wanted)
      invariant forall k :: high <= k < |values| ==> !Less(values[k], wanted)
    {
      var mid := low + (high - low) / 2;
      if Less(values[mid], wanted) {
        forall k | 0 <= k <= mid ensures Less(values[k], wanted) {
          if k < mid {
            LessIsTotal(values[k], values[mid]);
            if Less(values[k], values[mid]) {
              LessIsTransitive(values[k], values[mid], wanted);
            }
          }
        }
        low := mid + 1;
      } else {
        forall k | mid <= k < |values| ensures !Less(values[k], wanted) {
          if k > mid {
            AtMostIsTransitive(wanted, values[mid], values[k]);
          }
        }
        high := mid;
      }
    }
    return low;
  }

  method Contains(values: seq<string>, wanted: string) returns (found: bool)
    requires Sorted(values)
    ensures found <==> wanted in values
  {
    var index := Search(values, wanted);
    if index < |values| && values[index] == wanted {
      return true;
    }
    forall k | 0 <= k < |values| ensures values[k] != wanted {
      LessIsIrreflexive(wanted);
      if k >= index && values[k] == wanted {
        LessIsTotal(values[index], wanted);
      }
    }
    return false;
  }
}
