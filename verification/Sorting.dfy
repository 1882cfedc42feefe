/** sortForDispatch (internal/orchestrator/orchestrator.go): the comparator, and the only list a stable
    sort by it can deliver. */
module Sorting {
  import opened Domain

  datatype Key = Key(priority: int, created: int, identifier: string)

  function PriorityKey(p: Option<int>): int { if p.Some? then p.value else MAX_INT64 }

  function CreatedKey(t: Option<Time>): int { if t.Some? then t.value else MAX_INT64 }

  function KeyOf(issue: Issue): Key {
    Key(PriorityKey(issue.priority), CreatedKey(issue.created), issue.identifier)
  }

  predicate KeyLess(a: Key, b: Key) {
    if a.priority != b.priority then a.priority < b.priority
    else if a.created != b.created then a.created < b.created
    else StringLess(a.identifier, b.identifier)
  }

  lemma KeyLessTotal(a: Key, b: Key)
    ensures (if KeyLess(a, b) then 1 else 0) + (if KeyLess(b, a) then 1 else 0) + (if a == b then 1 else 0) == 1
  {
    StringLessTrichotomy(a.identifier, b.identifier);
  }

  lemma KeyLessTransitive(a: Key, b: Key, c: Key)
    requires KeyLess(a, b) && KeyLess(b, c)
    ensures KeyLess(a, c)
  {
    if a.priority == b.priority == c.priority && a.created == b.created == c.created {
      StringLessTransitive(a.identifier, b.identifier, c.identifier);
    }
  }

  /** x comes before y where a missing value comes last - and so does the largest int, which the
      comparator cannot tell from a missing one. */
  predicate Before(x: Option<int>, y: Option<int>) {
    x.Some? && x.value < MAX_INT64 && (y.None? || x.value < y.value)
  }

  /** The rank, in the tracker's terms: priority first, then the older issue, then the identifier. */
  lemma RankMeaning(a: Issue, b: Issue)
    requires forall v | v in [a.priority, b.priority, a.created, b.created] :: v.Some? ==> v.value <= MAX_INT64
    ensures KeyLess(KeyOf(a), KeyOf(b)) <==>
      || Before(a.priority, b.priority)
      || (!Before(b.priority, a.priority)
          && (Before(a.created, b.created) || (!Before(b.created, a.created) && StringLess(a.identifier, b.identifier))))
  {
    var vs := [a.priority, b.priority, a.created, b.created];
    assert vs[0] in vs && vs[1] in vs && vs[2] in vs && vs[3] in vs;
  }

  /** Not-less is transitive too: the comparator is a strict weak order. */
  lemma KeyNotLessTransitive(a: Key, b: Key, c: Key)
    requires !KeyLess(b, a) && !KeyLess(c, b)
    ensures !KeyLess(c, a)
  {
    KeyLessTotal(a, b);
    KeyLessTotal(b, c);
    KeyLessTotal(a, c);
    if a != b && b != c { KeyLessTransitive(a, b, c); }
  }

  // The comparator is the repository's, the algorithm behind sort.SliceStable is not.  So the order is
  // pinned by what a stable sort must deliver: sorted, and every class of equal keys left in its
  // original order.

  ghost predicate Sorted(s: seq<Issue>) {
    forall i, j :: 0 <= i < j < |s| ==> !KeyLess(KeyOf(s[j]), KeyOf(s[i]))
  }

  /** The elements with key k, in order. */
  ghost function Class(s: seq<Issue>, k: Key): seq<Issue> {
    if s == [] then []
    else Class(s[..|s| - 1], k) + (if KeyOf(s[|s| - 1]) == k then [s[|s| - 1]] else [])
  }

  /** `out` is what a stable sort of `s` has to be. */
  ghost predicate IsStableSort(out: seq<Issue>, s: seq<Issue>) {
    Sorted(out) && forall k :: Class(out, k) == Class(s, k)
  }

  // ---------- one such sort ----------

  function Insert(s: seq<Issue>, x: Issue): seq<Issue> {
    if s == [] || !KeyLess(KeyOf(x), KeyOf(s[|s| - 1])) then s + [x]
    else Insert(s[..|s| - 1], x) + [s[|s| - 1]]
  }

  function SortForDispatch(s: seq<Issue>): seq<Issue> {
    if s == [] then [] else Insert(SortForDispatch(s[..|s| - 1]), s[|s| - 1])
  }

  lemma ClassSnoc(s: seq<Issue>, x: Issue, k: Key)
    ensures Class(s + [x], k) == Class(s, k) + (if KeyOf(x) == k then [x] else [])
  {
    assert (s + [x])[..|s|] == s;
  }

  lemma {:induction false} InsertMembers(s: seq<Issue>, x: Issue)
    ensures multiset(Insert(s, x)) == multiset(s) + multiset{x}
    ensures |Insert(s, x)| == |s| + 1
  {
    if !(s == [] || !KeyLess(KeyOf(x), KeyOf(s[|s| - 1]))) {
      InsertMembers(s[..|s| - 1], x);
      assert s == s[..|s| - 1] + [s[|s| - 1]];
    }
  }

  lemma {:induction false} InsertSorted(s: seq<Issue>, x: Issue)
    requires Sorted(s)
    ensures Sorted(Insert(s, x))
  {
    if s == [] {
    } else if !KeyLess(KeyOf(x), KeyOf(s[|s| - 1])) {
      forall i | 0 <= i < |s| ensures !KeyLess(KeyOf(x), KeyOf(s[i])) {
        if i < |s| - 1 { KeyNotLessTransitive(KeyOf(s[i]), KeyOf(s[|s| - 1]), KeyOf(x)); }
      }
    } else {
      var rest, last := s[..|s| - 1], s[|s| - 1];
      InsertSorted(rest, x);
      InsertMembers(rest, x);
      var out := Insert(rest, x);
      KeyLessTotal(KeyOf(x), KeyOf(last));
      forall i | 0 <= i < |out| ensures !KeyLess(KeyOf(last), KeyOf(out[i])) {
        assert out[i] in multiset(out);
        assert out[i] == x || out[i] in multiset(rest);
      }
    }
  }

  lemma {:induction false} InsertClass(s: seq<Issue>, x: Issue, k: Key)
    requires Sorted(s)
    ensures Class(Insert(s, x), k) == Class(s, k) + (if KeyOf(x) == k then [x] else [])
  {
    if s == [] || !KeyLess(KeyOf(x), KeyOf(s[|s| - 1])) {
      ClassSnoc(s, x, k);
    } else {
      var rest, last := s[..|s| - 1], s[|s| - 1];
      InsertClass(rest, x, k);
      ClassSnoc(Insert(rest, x), last, k);
      KeyLessTotal(KeyOf(x), KeyOf(last));
    }
  }

  /** The model's sort is sorted, stable and loses nothing. */
  lemma {:induction false} SortIsStable(s: seq<Issue>)
    ensures IsStableSort(SortForDispatch(s), s)
    ensures multiset(SortForDispatch(s)) == multiset(s)
    ensures |SortForDispatch(s)| == |s|
  {
    hide Class, Insert, Sorted, KeyLess;
    if s == [] {
      NothingSorted();
    } else {
      var rest, last := s[..|s| - 1], s[|s| - 1];
      SortIsStable(rest);
      var out := SortForDispatch(rest);
      InsertSorted(out, last);
      InsertMembers(out, last);
      assert s == rest + [last];
      forall k ensures Class(Insert(out, last), k) == Class(s, k) {
        InsertClass(out, last, k);
        ClassSnoc(rest, last, k);
      }
    }
  }

  lemma NothingSorted()
    ensures Sorted([])
  {
  }

  // ---------- and it is the only one ----------

  lemma {:induction false} ClassMembers(s: seq<Issue>, k: Key)
    ensures forall i :: 0 <= i < |s| && KeyOf(s[i]) == k ==> s[i] in Class(s, k)
    ensures forall x :: x in Class(s, k) ==> x in s && KeyOf(x) == k
  {
    if s != [] { ClassMembers(s[..|s| - 1], k); }
  }

  lemma SameClassesNonempty(a: seq<Issue>, b: seq<Issue>)
    requires a != [] && forall k :: Class(a, k) == Class(b, k)
    ensures b != []
  {
    var k := KeyOf(a[0]);
    ClassMembers(a, k);
    ClassMembers(b, k);
    assert a[0] in Class(b, k);
  }

  lemma LastKey(a: seq<Issue>, b: seq<Issue>)
    requires Sorted(a) && Sorted(b) && a != [] && b != []
    requires forall k :: Class(a, k) == Class(b, k)
    ensures !KeyLess(KeyOf(a[|a| - 1]), KeyOf(b[|b| - 1]))
  {
    var x := b[|b| - 1];
    ClassMembers(b, KeyOf(x));
    ClassMembers(a, KeyOf(x));
    assert x in Class(b, KeyOf(x));
    assert x in a;
    var i :| 0 <= i < |a| && a[i] == x;
    if i == |a| - 1 { KeyLessTotal(KeyOf(x), KeyOf(x)); }
  }

  /** Any two stable sorts of the same list are the same list, so whatever algorithm
      sort.SliceStable runs, its result is SortForDispatch. */
  lemma {:induction false} StableSortUnique(a: seq<Issue>, b: seq<Issue>)
    requires Sorted(a) && Sorted(b)
    requires forall k :: Class(a, k) == Class(b, k)
    ensures a == b
  {
    if a == [] || b == [] {
      if a != [] { SameClassesNonempty(a, b); }
      if b != [] { SameClassesNonempty(b, a); }
    } else {
      var ra, x, rb, y := a[..|a| - 1], a[|a| - 1], b[..|b| - 1], b[|b| - 1];
      LastKey(a, b);
      LastKey(b, a);
      KeyLessTotal(KeyOf(x), KeyOf(y));
      var k := KeyOf(x);
      assert Class(a, k) == Class(ra, k) + [x] && Class(b, k) == Class(rb, k) + [y];
      assert x == Class(a, k)[|Class(a, k)| - 1] == y;
      forall q ensures Class(ra, q) == Class(rb, q) {
        assert Class(a, q) == Class(b, q);
        var tail := if KeyOf(x) == q then [x] else [];
        assert Class(a, q) == Class(ra, q) + tail && Class(b, q) == Class(rb, q) + tail;
        assert Class(ra, q) == Class(a, q)[..|Class(a, q)| - |tail|];
        assert Class(rb, q) == Class(b, q)[..|Class(b, q)| - |tail|];
      }
      StableSortUnique(ra, rb);
      assert a == ra + [x] && b == rb + [y];
    }
  }

  lemma SortForDispatchUnique(out: seq<Issue>, s: seq<Issue>)
    requires IsStableSort(out, s)
    ensures out == SortForDispatch(s)
  {
    SortIsStable(s);
    StableSortUnique(out, SortForDispatch(s));
  }
}
